/** The DAQ an experiment holds: either the simulated one or the one backed
    by the real device. `load_daq` picks one by name and `do_scan` calls it
    through the common interface (PFTL/model/base_daq.py); the calls are
    dispatched here, each with the contract of the class that runs it.

    The scan is stated at the level of that interface: which calls it made,
    in which order, and what the reads returned (`Call`). What a call does
    on the wire of the real DAQ is the contract of the dispatching method. */
module Daqs {
  import opened Wrappers
  import opened Failures
  import opened PyText
  import opened PftlDaq
  import DD = DummyDaq
  import AD = AnalogDaq

  datatype Daq = Dummy(dummy: DD.DummyDaq) | Analog(analog: AD.AnalogDaq)

  /** What a call on the DAQ may change: the real DAQ's driver. */
  function Objects(d: Daq): set<object>
  {
    match d
    case Dummy(_) => {}
    case Analog(a) => {a.driver}
  }

  /** The simulated DAQ always answers; the real one only over an open port. */
  ghost predicate Ready(d: Daq)
    reads Objects(d)
  {
    match d
    case Dummy(_) => true
    case Analog(a) => a.driver.rsc == Serial(true)
  }

  /** One call through the DAQ interface; a read records what it returned,
      `None` when it raised. */
  datatype Call =
    | SetOutput(channel: int, volts: real)
    | GetOutput(channel: int, reading: Option<real>)
    | GetInput(channel: int, reading: Option<real>)

  /** The calls of one sweep step at voltage `v`: set the output, read it
      back, measure the input. */
  function StepCalls(channelOut: int, channelIn: int, v: real, back: Option<real>, input: Option<real>): seq<Call>
  {
    [SetOutput(channelOut, v), GetOutput(channelOut, back), GetInput(channelIn, input)]
  }

  /** The calls of a step at voltage `v` cut short by an exception: a
      prefix of set, read back, measure, whatever the reads returned. */
  predicate StepPrefix(calls: seq<Call>, channelOut: int, channelIn: int, v: real)
  {
    && |calls| <= 3
    && (|calls| > 0 ==> calls[0] == SetOutput(channelOut, v))
    && (|calls| > 1 ==> calls[1].GetOutput? && calls[1].channel == channelOut)
    && (|calls| > 2 ==> calls[2].GetInput? && calls[2].channel == channelIn)
  }

  /** `StepPrefix` says exactly that the calls are a prefix of the step's
      calls for some readings. */
  lemma StepPrefixIff(calls: seq<Call>, channelOut: int, channelIn: int, v: real)
    ensures StepPrefix(calls, channelOut, channelIn, v)
        <==> exists back, input :: calls <= StepCalls(channelOut, channelIn, v, back, input)
  {
    if StepPrefix(calls, channelOut, channelIn, v) {
      var back := if |calls| > 1 then calls[1].reading else None;
      var input := if |calls| > 2 then calls[2].reading else None;
      assert calls <= StepCalls(channelOut, channelIn, v, back, input);
    }
  }

  /** A prefix of a step's calls is a `StepPrefix`. */
  lemma PrefixOfStep(calls: seq<Call>, channelOut: int, channelIn: int, v: real, back: Option<real>, input: Option<real>)
    requires calls <= StepCalls(channelOut, channelIn, v, back, input)
    ensures StepPrefix(calls, channelOut, channelIn, v)
  {
    StepPrefixIff(calls, channelOut, channelIn, v);
  }

  /** The calls of a sweep through the voltages `vs` whose reads all
      succeeded, returning `outs` and `ins`. */
  function ScanCalls(channelOut: int, channelIn: int, vs: seq<real>, outs: seq<real>, ins: seq<real>): (calls: seq<Call>)
    requires |outs| == |vs| && |ins| == |vs|
    ensures |calls| == 3 * |vs|
  {
    if vs == [] then []
    else
      var k := |vs| - 1;
      ScanCalls(channelOut, channelIn, vs[..k], outs[..k], ins[..k])
        + StepCalls(channelOut, channelIn, vs[k], Some(outs[k]), Some(ins[k]))
  }

  /** Calls `3k`, `3k + 1` and `3k + 2` of a sweep are step `k`'s: set the
      output to `vs[k]`, read back `outs[k]`, measure `ins[k]`. */
  lemma {:induction false} ScanCallsAt(channelOut: int, channelIn: int, vs: seq<real>, outs: seq<real>, ins: seq<real>, k: nat)
    requires |outs| == |vs| && |ins| == |vs| && k < |vs|
    ensures ScanCalls(channelOut, channelIn, vs, outs, ins)[3 * k..3 * k + 3]
         == StepCalls(channelOut, channelIn, vs[k], Some(outs[k]), Some(ins[k]))
    decreases |vs|
  {
    var n := |vs| - 1;
    if k < n {
      ScanCallsAt(channelOut, channelIn, vs[..n], outs[..n], ins[..n], k);
    }
  }

  /** The calls of the sweep through the first `k + 1` voltages of `vs` are
      those through the first `k`, then step `k`'s. */
  lemma ScanCallsNext(channelOut: int, channelIn: int, vs: seq<real>, k: nat, outs: seq<real>, ins: seq<real>,
                      out: real, input: real)
    requires k < |vs| && |outs| == k && |ins| == k
    ensures ScanCalls(channelOut, channelIn, vs[..k + 1], outs + [out], ins + [input])
         == ScanCalls(channelOut, channelIn, vs[..k], outs, ins) + StepCalls(channelOut, channelIn, vs[k], Some(out), Some(input))
  {
    assert vs[..k + 1][..k] == vs[..k];
    assert (outs + [out])[..k] == outs;
    assert (ins + [input])[..k] == ins;
  }

  /** What a step at voltage `v` does to the real DAQ over an open port
      with `replies` pending: the measured voltage, the voltage read back,
      the frames written and the replies left. Each request writes one
      frame and consumes one reply, and the first exception ends the step. */
  function AnalogStep(channelOut: int, channelIn: int, v: real, replies: seq<seq<byte>>)
    : (s: (Result<real, Error>, Option<real>, seq<seq<byte>>, seq<seq<byte>>))
    ensures 1 <= |s.2| <= 3 && s.3 == Drop(replies, |s.2|)
    ensures s.1.Some? <==> |s.2| == 3
  {
    var m0 := SetOutMessage(channelOut, AD.OutputCode(v));
    var m1 := GetOutMessage(channelOut);
    var m2 := MeasMessage(channelIn);
    var setting := Exchange(Serial(true), m0, replies);
    var out := AsCode(Exchange(Serial(true), m1, Rest(replies))).Map(AD.OutputVolts);
    var input := AsCode(Exchange(Serial(true), m2, Rest(Rest(replies)))).Map(AD.InputVolts);
    if setting.Err? then (Err(setting.error), None, [Frame(m0).value], Rest(replies))
    else if out.Err? then (Err(out.error), None, [Frame(m0).value, Frame(m1).value], Rest(Rest(replies)))
    else (input, Some(out.value), [Frame(m0).value, Frame(m1).value, Frame(m2).value], Rest(Rest(Rest(replies))))
  }

  /** A device that accepts the setting and answers both reads with a code
      and a line end is read back on the two scales: the output code on
      the 4095 scale, the input code on the 1023 scale. The step writes the
      three requests in order and consumes three replies. */
  lemma AnalogStepReadsCodes(channelOut: int, channelIn: int, v: real, replies: seq<seq<byte>>,
                             outCode: int, inCode: int)
    requires Answer(Next(replies)).Ok?
    requires Decode(Next(Rest(replies))) == Some(IntToString(outCode) + "\r\n")
    requires Decode(Next(Rest(Rest(replies)))) == Some(IntToString(inCode) + "\r\n")
    ensures AnalogStep(channelOut, channelIn, v, replies)
      == (Ok(AD.InputVolts(inCode)), Some(AD.OutputVolts(outCode)),
          [Frame(SetOutMessage(channelOut, AD.OutputCode(v))).value,
           Frame(GetOutMessage(channelOut)).value, Frame(MeasMessage(channelIn)).value],
          Drop(replies, 3))
  {
    CodeAnswer(Next(Rest(replies)), outCode);
    CodeAnswer(Next(Rest(Rest(replies))), inCode);
  }

  /** A reply line holding a code and a line end is read as that code. */
  lemma CodeAnswer(line: seq<byte>, code: int)
    requires Decode(line) == Some(IntToString(code) + "\r\n")
    ensures AsCode(Answer(line)) == Ok(code)
  {
    assert AllSpace("\r\n") && IsAscii("\r\n");
    EncodeDecode(line);
    CodeReplyRoundTrip(code, "\r\n");
  }

  /** Appending one element at a time is appending them together. */
  lemma AppendEach<T>(s: seq<T>, a: T, b: T, c: T)
    ensures s + [a] + [b] == s + [a, b]
    ensures s + [a] + [b] + [c] == s + [a, b, c]
  {
  }

  method Initialize(d: Daq) returns (r: Outcome<Error>)
    modifies Objects(d)
    ensures d.Dummy? ==> r == Pass
    ensures d.Analog? ==>
      var drv := d.analog.driver;
      var z := AD.ZeroedOutputs(Serial(true), old(drv.replies));
      && (!drv.present ==> r == Fail(PortUnavailable) && unchanged(drv))
      && (drv.present ==> drv.rsc == Serial(true))
      && (drv.present ==> r == z.0 && drv.sent == old(drv.sent) + z.1 && drv.replies == z.2)
  {
    match d
    case Dummy(dm) =>
      dm.Initialize();
      r := Pass;
    case Analog(a) =>
      r := a.Initialize();
  }

  method Finalize(d: Daq) returns (r: Outcome<Error>)
    modifies Objects(d)
    ensures d.Dummy? ==> r == Pass
    ensures d.Analog? ==>
      var drv := d.analog.driver;
      var z := AD.ZeroedOutputs(old(drv.rsc), old(drv.replies));
      && r == z.0 && drv.sent == old(drv.sent) + z.1 && drv.replies == z.2
      && drv.rsc == if r.Pass? then Closed(old(drv.rsc)) else old(drv.rsc)
  {
    match d
    case Dummy(dm) =>
      dm.Finalize();
      r := Pass;
    case Analog(a) =>
      r := a.Finalize();
  }

  method SetOutputVoltage(d: Daq, channel: int, volts: real) returns (r: Outcome<Error>)
    modifies Objects(d)
    ensures d.Dummy? ==> r == Pass
    ensures d.Analog? ==>
      var drv := d.analog.driver;
      var m := SetOutMessage(channel, AD.OutputCode(volts));
      drv.Exchanged(m) && r == Exchange(old(drv.rsc), m, old(drv.replies)).ToOutcome()
  {
    match d
    case Dummy(dm) =>
      dm.SetOutputVoltage(channel, volts);
      r := Pass;
    case Analog(a) =>
      r := a.SetOutputVoltage(channel, volts);
  }

  method GetOutputVoltage(d: Daq, channel: int) returns (r: Result<real, Error>)
    modifies Objects(d)
    ensures d.Dummy? ==> r.Ok? && 0.0 <= r.value < 1.0
    ensures d.Analog? ==>
      var drv := d.analog.driver;
      var m := GetOutMessage(channel);
      drv.Exchanged(m) && r == AsCode(Exchange(old(drv.rsc), m, old(drv.replies))).Map(AD.OutputVolts)
  {
    match d
    case Dummy(dm) =>
      var v := dm.GetOutputVoltage(channel);
      r := Ok(v);
    case Analog(a) =>
      r := a.GetOutputVoltage(channel);
  }

  method GetInputVoltage(d: Daq, channel: int) returns (r: Result<real, Error>)
    modifies Objects(d)
    ensures d.Dummy? ==> r.Ok? && 0.0 <= r.value < 1.0
    ensures d.Analog? ==>
      var drv := d.analog.driver;
      var m := MeasMessage(channel);
      drv.Exchanged(m) && r == AsCode(Exchange(old(drv.rsc), m, old(drv.replies))).Map(AD.InputVolts)
  {
    match d
    case Dummy(dm) =>
      var v := dm.GetInputVoltage(channel);
      r := Ok(v);
    case Analog(a) =>
      r := a.GetInputVoltage(channel);
  }

  /** The DAQ calls of one sweep step at voltage `v`: set `channelOut` to
      `v`, read it back (`back`), then measure `channelIn` (`r`); the first
      exception ends the step. `made` lists the calls made. The simulated
      DAQ never raises; the real one raises at once when its port is not
      open, and stays open. */
  method Step(d: Daq, channelOut: int, channelIn: int, v: real)
    returns (r: Result<real, Error>, back: Option<real>, ghost made: seq<Call>)
    modifies Objects(d)
    ensures 1 <= |made| && made <= StepCalls(channelOut, channelIn, v, back, r.ToOption())
    ensures back.Some? <==> |made| == 3
    ensures r.Ok? ==> back.Some?
    ensures !old(Ready(d)) ==> |made| == 1 && r.Err? && back.None?
    ensures Ready(d) == old(Ready(d))
    ensures d.Dummy? ==> r.Ok? && back.Some? && 0.0 <= back.value < 1.0 && 0.0 <= r.value < 1.0
    ensures r.Err? ==> FromDaq(r.error)
    ensures d.Analog? && !old(Ready(d)) ==>
      d.analog.driver.sent == old(d.analog.driver.sent) && d.analog.driver.replies == old(d.analog.driver.replies)
    ensures d.Analog? && old(Ready(d)) ==>
      var drv := d.analog.driver;
      var s := AnalogStep(channelOut, channelIn, v, old(drv.replies));
      r == s.0 && back == s.1 && drv.sent == old(drv.sent) + s.2 && drv.replies == s.3
  {
    ghost var sent := if d.Analog? then d.analog.driver.sent else [];
    ghost var f0 := Frame(SetOutMessage(channelOut, AD.OutputCode(v))).value;
    ghost var f1 := Frame(GetOutMessage(channelOut)).value;
    ghost var f2 := Frame(MeasMessage(channelIn)).value;
    AppendEach(sent, f0, f1, f2);
    back := None;
    var setting := SetOutputVoltage(d, channelOut, v);
    if setting.Fail? {
      return Err(setting.error), back, [SetOutput(channelOut, v)];
    }
    var out := GetOutputVoltage(d, channelOut);
    if out.Err? {
      return Err(out.error), back, [SetOutput(channelOut, v), GetOutput(channelOut, None)];
    }
    back := Some(out.value);
    r := GetInputVoltage(d, channelIn);
    made := StepCalls(channelOut, channelIn, v, back, r.ToOption());
  }

  /** `Step` as a sweep sees it: the calls made and the values read, and
      not the bytes on the real DAQ's wire, which the sweeps do not use. */
  method SweepPoint(d: Daq, channelOut: int, channelIn: int, v: real)
    returns (r: Result<real, Error>, back: Option<real>, ghost made: seq<Call>)
    modifies Objects(d)
    ensures 1 <= |made| && made <= StepCalls(channelOut, channelIn, v, back, r.ToOption())
    ensures back.Some? <==> |made| == 3
    ensures r.Ok? ==> back.Some?
    ensures !old(Ready(d)) ==> |made| == 1 && r.Err? && back.None?
    ensures Ready(d) == old(Ready(d))
    ensures d.Dummy? ==> r.Ok? && back.Some? && 0.0 <= back.value < 1.0 && 0.0 <= r.value < 1.0
    ensures r.Err? ==> FromDaq(r.error)
  {
    r, back, made := Step(d, channelOut, channelIn, v);
  }
}
