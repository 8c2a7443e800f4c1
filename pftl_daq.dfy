/** The serial client of the PFTL DAQ (PFTL/controller/pftl_daq.py).

    The serial port is an oracle: `replies` lists what successive
    `readline()` calls return (an exhausted list reads as `b""`, which is
    what a read timeout gives), and `sent` logs the bytes of every `write()`. */
module PftlDaq {
  import opened Wrappers
  import opened Failures
  import opened PyText

  /** The attribute `rsc`: `None` until `initialize`, then a serial port
      that is open until `finalize` closes it. */
  datatype Resource = Unopened | Serial(isOpen: bool)

  /** The far side of the link: whether the operating system lets
      `serial.Serial` claim the port, and the lines the device will send. */
  datatype Wire = Wire(present: bool, replies: seq<seq<byte>>)

  const WriteTermination: string := "\n"
  /** Listed among the defaults but never used: `readline` plus `strip`
      take its place. */
  const ReadTermination: string := "\r\n"
  const ErrorPrefix: string := "ERROR"
  const ErrorMessage: string := "There was an error with the message passed to the device: "

  /** `(message + "\n").encode("ascii")`: the bytes of one request. */
  function Frame(message: string): (r: Option<seq<byte>>)
    ensures r.Some? <==> IsAscii(message)
    ensures r.Some? ==> r.value == Encode(message).value + [10]
    ensures r.Some? ==> Decode(r.value) == Some(message + "\n")
  {
    if IsAscii(message) then
      EncodeAppend(message, WriteTermination);
      DecodeEncode(message + WriteTermination);
      Encode(message + WriteTermination)
    else
      assert (message + WriteTermination)[..|message|] == message;
      Encode(message + WriteTermination)
  }

  /** What the next `readline()` returns. */
  function Next(replies: seq<seq<byte>>): seq<byte>
  {
    if replies == [] then [] else replies[0]
  }

  /** The replies left after one `readline()`. */
  function Rest(replies: seq<seq<byte>>): seq<seq<byte>>
  {
    if replies == [] then [] else replies[1..]
  }

  /** The replies left after `k` reads. */
  function Drop(replies: seq<seq<byte>>, k: nat): (r: seq<seq<byte>>)
    ensures k <= |replies| ==> r == replies[k..]
  {
    if k <= |replies| then replies[k..] else []
  }

  /** The answer `query` makes of a line read back: decoded, stripped, and
      turned into an exception when it starts with `ERROR`. */
  function Answer(line: seq<byte>): (r: Result<string, Error>)
    ensures r.Ok? ==> Decode(line).Some? && r.value == Strip(Decode(line).value)
    ensures r.Ok? ==> Trimmed(r.value) && !(ErrorPrefix <= r.value)
    ensures Decode(line).None? <==> r == Err(DecodeError)
    ensures r.Err? && r.error.DeviceError? ==>
      Decode(line).Some? && r.error.message == ErrorMessage + Strip(Decode(line).value)
    ensures Decode(line).Some? ==>
      var ans := Strip(Decode(line).value);
      r == if ErrorPrefix <= ans then Err(DeviceError(ErrorMessage + ans)) else Ok(ans)
  {
    match Decode(line)
    case None => Err(DecodeError)
    case Some(text) =>
      var ans := Strip(text);
      if ErrorPrefix <= ans then Err(DeviceError(ErrorMessage + ans)) else Ok(ans)
  }

  /** The result of `query(message)` given the port's state and the pending
      replies: encoding comes first, then the write, then the read. */
  function Exchange(rsc: Resource, message: string, replies: seq<seq<byte>>): (r: Result<string, Error>)
    ensures !IsAscii(message) <==> r == Err(EncodeError)
    ensures IsAscii(message) && rsc != Serial(true) ==> r == Err(if rsc.Unopened? then NoResource else PortNotOpen)
    ensures IsAscii(message) && rsc == Serial(true) ==> r == Answer(Next(replies))
    ensures r.Err? ==> FromDaq(r.error)
  {
    if !IsAscii(message) then Err(EncodeError)
    else match rsc
      case Unopened => Err(NoResource)
      case Serial(open) => if !open then Err(PortNotOpen) else Answer(Next(replies))
  }

  /** `int(ans)` applied to the answer of a query. */
  function AsCode(answer: Result<string, Error>): (r: Result<int, Error>)
    ensures answer.Err? ==> r == Err(answer.error)
    ensures answer.Ok? ==> (r.Ok? <==> ParseInt(answer.value).Some?)
    ensures r.Ok? ==> answer.Ok? && ParseInt(answer.value) == Some(r.value)
    ensures answer.Ok? && r.Err? ==> r.error == NotAnInteger(answer.value)
  {
    match answer
    case Err(e) => Err(e)
    case Ok(s) => match ParseInt(s)
      case None => Err(NotAnInteger(s))
      case Some(n) => Ok(n)
  }

  /** The state `finalize` leaves: a port that was ever opened is closed. */
  function Closed(rsc: Resource): Resource
  {
    if rsc.Unopened? then Unopened else Serial(false)
  }

  // ---------------------------------------------------------------------
  // Request builders
  // ---------------------------------------------------------------------

  function IdnMessage(): (m: string)
    ensures IsAscii(m)
  {
    "*IDN?"
  }

  /** `f"MEAS:CH{channel}?"` */
  function MeasMessage(channel: int): (m: string)
    ensures IsAscii(m)
  {
    "MEAS:CH" + IntToString(channel) + "?"
  }

  /** `f"OUT:CH{channel} {output_value}"` */
  function SetOutMessage(channel: int, value: int): (m: string)
    ensures IsAscii(m)
  {
    "OUT:CH" + IntToString(channel) + " " + IntToString(value)
  }

  /** `f"OUT:CH{channel}?"` */
  function GetOutMessage(channel: int): (m: string)
    ensures IsAscii(m)
  {
    "OUT:CH" + IntToString(channel) + "?"
  }

  /** The channel can be read back out of a measurement request. */
  lemma MeasMessageChannel(channel: int)
    ensures var m := MeasMessage(channel);
      && m[..7] == "MEAS:CH" && m[|m| - 1] == '?'
      && ParseInt(m[7..|m| - 1]) == Some(channel)
  {
    var m := MeasMessage(channel);
    assert m[7..|m| - 1] == IntToString(channel);
    ParseIntRoundTrip(channel);
  }

  /** The channel can be read back out of an output readback request. */
  lemma GetOutMessageChannel(channel: int)
    ensures var m := GetOutMessage(channel);
      && m[..6] == "OUT:CH" && m[|m| - 1] == '?'
      && ParseInt(m[6..|m| - 1]) == Some(channel)
  {
    var m := GetOutMessage(channel);
    assert m[6..|m| - 1] == IntToString(channel);
    ParseIntRoundTrip(channel);
  }

  lemma OutChannelHasNoSpace(c: string)
    requires forall i :: 0 <= i < |c| ==> IsDigit(c[i]) || c[i] == '-'
    ensures forall i :: 0 <= i < |"OUT:CH" + c| ==> ("OUT:CH" + c)[i] != ' '
  {
    var head := "OUT:CH" + c;
    forall i | 0 <= i < |head|
      ensures head[i] != ' '
    {
      if i < 6 {
        assert head[i] == "OUT:CH"[i];
      } else {
        assert head[i] == c[i - 6];
      }
    }
  }

  /** An output request is `"OUT:CH"`, the channel, one space and the code;
      the space is the first one, so the request splits unambiguously. */
  lemma SetOutMessageLayout(channel: int, value: int)
    ensures var m := SetOutMessage(channel, value);
      var k := 6 + |IntToString(channel)|;
      && k < |m| && m[..6] == "OUT:CH" && m[k] == ' '
      && m[6..k] == IntToString(channel) && m[k + 1..] == IntToString(value)
      && (forall i :: 0 <= i < k ==> m[i] != ' ')
  {
    var c := IntToString(channel);
    var v := IntToString(value);
    var head := "OUT:CH" + c;
    var m := SetOutMessage(channel, value);
    assert m == head + (" " + v);
    var k := |head|;
    assert m[..k] == head;
    assert m[k + 1..] == v;
    assert head[6..] == c;
    OutChannelHasNoSpace(c);
    assert forall i :: 0 <= i < k ==> m[i] == head[i];
  }

  /** Both fields of an output request read back as the integers sent. */
  lemma SetOutMessageFields(channel: int, value: int)
    ensures var m := SetOutMessage(channel, value);
      var k := 6 + |IntToString(channel)|;
      && k < |m| && m[k] == ' ' && (forall i :: 0 <= i < k ==> m[i] != ' ')
      && ParseInt(m[6..k]) == Some(channel)
      && ParseInt(m[k + 1..]) == Some(value)
  {
    SetOutMessageLayout(channel, value);
    ParseIntRoundTrip(channel);
    ParseIntRoundTrip(value);
  }

  // ---------------------------------------------------------------------
  // Properties of the shared query path
  // ---------------------------------------------------------------------

  /** On an open port, every request, whatever it is, fails with the full
      stripped answer whenever that answer starts with `ERROR`; `int()` in
      the getters never sees it. All four request builders give ASCII
      messages, so this covers `idn` and the three channel operations. */
  lemma {:induction false} ErrorReplyRaises(message: string, replies: seq<seq<byte>>, text: string)
    requires IsAscii(message)
    requires Decode(Next(replies)) == Some(text) && ErrorPrefix <= Strip(text)
    ensures Exchange(Serial(true), message, replies) == Err(DeviceError(ErrorMessage + Strip(text)))
    ensures AsCode(Exchange(Serial(true), message, replies)) == Err(DeviceError(ErrorMessage + Strip(text)))
  {
  }

  /** A line holding a trimmed text followed by whitespace is answered
      with exactly that text, unless it starts with `ERROR`. */
  lemma AnswerOfPaddedText(text: string, trail: string)
    requires IsAscii(text + trail) && Trimmed(text) && AllSpace(trail)
    requires !(ErrorPrefix <= text)
    ensures Answer(Encode(text + trail).value) == Ok(text)
  {
    DecodeEncode(text + trail);
    assert [] + text + trail == text + trail;
    StripSurrounded([], text, trail);
  }

  /** A device that answers `str(code)` followed by any whitespace (the
      firmware's `"\r\n"`) is read back as exactly that code. */
  lemma CodeReplyRoundTrip(code: int, trail: string)
    requires AllSpace(trail) && IsAscii(trail)
    ensures IsAscii(IntToString(code) + trail)
    ensures AsCode(Answer(Encode(IntToString(code) + trail).value)) == Ok(code)
  {
    var s := IntToString(code);
    assert IsAscii(s);
    EncodeAppend(s, trail);
    assert s[0] == '-' || IsDigit(s[0]);
    assert s[0] != ErrorPrefix[0];
    AnswerOfPaddedText(s, trail);
    ParseIntRoundTrip(code);
  }

  /** A read that times out returns `b""`: the answer is the empty text, not
      a distinct timeout error, and the getters fail only in `int("")`. */
  lemma TimeoutReadsAsEmpty(message: string)
    requires IsAscii(message)
    ensures Exchange(Serial(true), message, []) == Ok("")
    ensures AsCode(Exchange(Serial(true), message, [])) == Err(NotAnInteger(""))
  {
    assert Decode([]) == Some("");
  }

  /** A request fails before anything is written unless the port is open
      and the message is ASCII. */
  lemma ExchangeNeedsOpenPort(rsc: Resource, message: string, replies: seq<seq<byte>>)
    requires Exchange(rsc, message, replies).Ok? || Exchange(rsc, message, replies).error.DeviceError?
    ensures rsc == Serial(true) && IsAscii(message)
  {
  }

  class Device {
    const port: string
    /** Whether the operating system lets `serial.Serial` claim `port`. */
    const present: bool
    var rsc: Resource
    /** The bytes of every `write()` so far, one entry per call. */
    var sent: seq<seq<byte>>
    /** What the following `readline()` calls return. */
    var replies: seq<seq<byte>>

    /** Stores the port; the serial resource stays `None`. */
    constructor(port: string, wire: Wire)
      ensures this.port == port && present == wire.present
      ensures rsc == Unopened && sent == [] && replies == wire.replies
    {
      this.port := port;
      present := wire.present;
      rsc := Unopened;
      sent := [];
      replies := wire.replies;
    }

    /** Opens the serial port; the one-second settle sleep is not modelled. */
    method Initialize() returns (r: Outcome<Error>)
      modifies this`rsc
      ensures r == (if present then Pass else Fail(PortUnavailable))
      ensures rsc == (if present then Serial(true) else old(rsc))
    {
      if !present {
        return Fail(PortUnavailable);
      }
      rsc := Serial(true);
      r := Pass;
    }

    /** One request/response: what changed on the wire during a call that
        issued `query(message)`. The port's open state never changes; a
        write and a read happen exactly when the port is open and the
        message encodes. */
    twostate predicate Exchanged(message: string)
      reads this
    {
      && rsc == old(rsc)
      && if old(rsc) == Serial(true) && IsAscii(message) then
           sent == old(sent) + [Frame(message).value] && replies == Rest(old(replies))
         else
           sent == old(sent) && replies == old(replies)
    }

    method Query(message: string) returns (r: Result<string, Error>)
      modifies this`sent, this`replies
      ensures Exchanged(message)
      ensures r == Exchange(old(rsc), message, old(replies))
    {
      var bytes := Frame(message);
      if bytes.None? {
        return Err(EncodeError);
      }
      match rsc {
        case Unopened =>
          return Err(NoResource);
        case Serial(open) =>
          if !open {
            return Err(PortNotOpen);
          }
      }
      sent := sent + [bytes.value];
      var line := Next(replies);
      replies := Rest(replies);
      r := Answer(line);
    }

    method Idn() returns (r: Result<string, Error>)
      modifies this`sent, this`replies
      ensures Exchanged(IdnMessage())
      ensures r == Exchange(old(rsc), IdnMessage(), old(replies))
    {
      r := Query(IdnMessage());
    }

    method GetAnalogInput(channel: int) returns (r: Result<int, Error>)
      modifies this`sent, this`replies
      ensures Exchanged(MeasMessage(channel))
      ensures r == AsCode(Exchange(old(rsc), MeasMessage(channel), old(replies)))
    {
      var ans := Query(MeasMessage(channel));
      r := AsCode(ans);
    }

    /** Returns the device's stripped answer, unparsed. */
    method SetAnalogOutput(channel: int, outputValue: int) returns (r: Result<string, Error>)
      modifies this`sent, this`replies
      ensures Exchanged(SetOutMessage(channel, outputValue))
      ensures r == Exchange(old(rsc), SetOutMessage(channel, outputValue), old(replies))
    {
      r := Query(SetOutMessage(channel, outputValue));
    }

    method GetAnalogOutput(channel: int) returns (r: Result<int, Error>)
      modifies this`sent, this`replies
      ensures Exchanged(GetOutMessage(channel))
      ensures r == AsCode(Exchange(old(rsc), GetOutMessage(channel), old(replies)))
    {
      var ans := Query(GetOutMessage(channel));
      r := AsCode(ans);
    }

    /** Closes the port if there is one; a never-initialized device is left alone. */
    method Finalize()
      modifies this`rsc
      ensures rsc == Closed(old(rsc))
      ensures old(rsc) == Unopened ==> rsc == Unopened
    {
      if rsc != Unopened {
        rsc := Serial(false);
      }
    }
  }
}
