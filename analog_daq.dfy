/** The DAQ backed by the real device (PythonForTheLab/Model/analog_daq.py):
    volts are turned into device codes and back, and the two outputs are
    driven to 0 V when the driver opens and before it closes.

    Magnitudes are exact rationals (`real`) in volts; Pint quantities and
    IEEE doubles are not modelled. */
module AnalogDaq {
  import opened Wrappers
  import opened Failures
  import opened PyText
  import opened PftlDaq

  /** The converters' reference voltage. */
  const Reference: real := 3.3
  /** Full-scale code of the 12-bit output converter. */
  const OutputFullCode: int := 4095
  /** Full-scale code of the 10-bit input converter. */
  const InputFullCode: int := 1023

  // ---------------------------------------------------------------------
  // Python's round()
  // ---------------------------------------------------------------------

  /** Python 3 `round(x)`: the nearest integer, ties going to the even one. */
  function RoundHalfEven(x: real): (n: int)
    ensures -0.5 <= n as real - x <= 0.5
    ensures (n as real - x == 0.5 || x - n as real == 0.5) ==> n % 2 == 0
  {
    var f := x.Floor;
    var d := x - f as real;
    if d < 0.5 then f
    else if d > 0.5 then f + 1
    else if f % 2 == 0 then f
    else f + 1
  }

  /** The two properties above pin the result down: any integer with them
      is `round(x)`. */
  lemma RoundHalfEvenUnique(x: real, n: int)
    requires -0.5 <= n as real - x <= 0.5
    requires (n as real - x == 0.5 || x - n as real == 0.5) ==> n % 2 == 0
    ensures n == RoundHalfEven(x)
  {
  }

  lemma RoundHalfEvenOfInteger(n: int)
    ensures RoundHalfEven(n as real) == n
  {
  }

  /** `round` never decreases as its argument grows. */
  lemma RoundHalfEvenMonotone(x: real, y: real)
    requires x <= y
    ensures RoundHalfEven(x) <= RoundHalfEven(y)
  {
  }

  // ---------------------------------------------------------------------
  // Scaling between volts and codes
  // ---------------------------------------------------------------------

  /** `round(V / 3.3 * 4095)`: the code sent for an output voltage. There is
      no clamping to 0..4095. */
  function OutputCode(volts: real): (code: int)
    ensures -0.5 <= code as real - volts / Reference * OutputFullCode as real <= 0.5
  {
    RoundHalfEven(volts / Reference * OutputFullCode as real)
  }

  /** `code * 3.3 V / 4095`: an output code read back as volts. */
  function OutputVolts(code: int): (v: real)
    ensures 0 <= code <= OutputFullCode ==> 0.0 <= v <= Reference
    ensures code == OutputFullCode ==> v == Reference
  {
    code as real * Reference / OutputFullCode as real
  }

  /** `code * 3.3 V / 1023`: an input code as volts. */
  function InputVolts(code: int): (v: real)
    ensures 0 <= code <= InputFullCode ==> 0.0 <= v <= Reference
    ensures code == InputFullCode ==> v == Reference
  {
    code as real * Reference / InputFullCode as real
  }

  /** Setting the voltage that a code reads back as sends that code again. */
  lemma OutputCodeRoundTrip(code: int)
    ensures OutputCode(OutputVolts(code)) == code
  {
    assert OutputVolts(code) / Reference * OutputFullCode as real == code as real;
    RoundHalfEvenOfInteger(code);
  }

  lemma OutputCodeOfZero()
    ensures OutputCode(0.0) == 0
  {
    RoundHalfEvenOfInteger(0);
  }

  /** A higher voltage never gets a lower code. */
  lemma OutputCodeMonotone(v: real, w: real)
    requires v <= w
    ensures OutputCode(v) <= OutputCode(w)
  {
    RoundHalfEvenMonotone(v / Reference * OutputFullCode as real, w / Reference * OutputFullCode as real);
  }

  /** Voltage to code to voltage lands within half a code step of the request. */
  lemma OutputWithinHalfStep(volts: real)
    ensures var back := OutputVolts(OutputCode(volts));
      -Reference / (2.0 * OutputFullCode as real) <= back - volts <= Reference / (2.0 * OutputFullCode as real)
  {
    var x := volts / Reference * OutputFullCode as real;
    var n := RoundHalfEven(x);
    assert volts == x * Reference / OutputFullCode as real;
    assert OutputVolts(n) - volts == (n as real - x) * Reference / OutputFullCode as real;
  }

  /** Voltages outside 0..3.3 V are not clamped: twice the reference asks
      for code 8190, beyond the converter's 4095. */
  lemma OutputCodeNotClamped()
    ensures OutputCode(2.0 * Reference) == 2 * OutputFullCode
  {
    assert 2.0 * Reference / Reference * OutputFullCode as real == (2 * OutputFullCode) as real;
    RoundHalfEvenOfInteger(2 * OutputFullCode);
  }

  /** The input scale is 4095/1023 times the output scale: the two differ
      for every non-zero code. */
  lemma InputAndOutputScalesDiffer(code: int)
    ensures InputVolts(code) * InputFullCode as real == OutputVolts(code) * OutputFullCode as real
    ensures code != 0 ==> InputVolts(code) != OutputVolts(code)
  {
  }

  /** Distinct input codes read as distinct voltages, in the same order. */
  lemma InputVoltsStrictlyMonotone(a: int, b: int)
    requires a < b
    ensures InputVolts(a) < InputVolts(b)
  {
  }

  /** The two requests that drive both outputs to 0 V. */
  lemma ZeroRequests()
    ensures SetOutMessage(0, OutputCode(0.0)) == "OUT:CH0 0"
    ensures SetOutMessage(1, OutputCode(0.0)) == "OUT:CH1 0"
  {
    OutputCodeOfZero();
    assert IntToString(0) == "0";
    assert IntToString(1) == "1";
  }

  /** What setting channel 0 and then channel 1 to 0 V does, starting from a
      port in state `rsc` with `replies` pending: the outcome, the frames
      written and the replies left. The first failure stops the sequence,
      and only requests that reach an open port are written. */
  function ZeroedOutputs(rsc: Resource, replies: seq<seq<byte>>): (z: (Outcome<Error>, seq<seq<byte>>, seq<seq<byte>>))
    ensures |z.1| <= 2 && z.2 == Drop(replies, |z.1|)
    ensures z.1 == [] <==> rsc != Serial(true)
    ensures z.0.Pass? ==> rsc == Serial(true) && |z.1| == 2
  {
    var m0, m1 := SetOutMessage(0, OutputCode(0.0)), SetOutMessage(1, OutputCode(0.0));
    var q0 := Exchange(rsc, m0, replies);
    if q0.Err? && rsc != Serial(true) then (Fail(q0.error), [], replies)
    else if q0.Err? then (Fail(q0.error), [Frame(m0).value], Rest(replies))
    else (Exchange(rsc, m1, Rest(replies)).ToOutcome(), [Frame(m0).value, Frame(m1).value], Rest(Rest(replies)))
  }

  /** On an open port whose device accepts both requests, the bytes
      "OUT:CH0 0\n" and then "OUT:CH1 0\n" are written and nothing fails. */
  lemma ZeroingOpenPort(replies: seq<seq<byte>>)
    requires Answer(Next(replies)).Ok? && Answer(Next(Rest(replies))).Ok?
    ensures IsAscii("OUT:CH0 0") && IsAscii("OUT:CH1 0")
    ensures ZeroedOutputs(Serial(true), replies)
         == (Pass, [Frame("OUT:CH0 0").value, Frame("OUT:CH1 0").value], Rest(Rest(replies)))
  {
    ZeroRequests();
    var m0, m1 := SetOutMessage(0, OutputCode(0.0)), SetOutMessage(1, OutputCode(0.0));
    assert Exchange(Serial(true), m0, replies) == Answer(Next(replies));
    assert Exchange(Serial(true), m1, Rest(replies)) == Answer(Next(Rest(replies)));
  }

  /** A port that is not open (never opened, or closed) gets nothing written,
      and the first request already fails. */
  lemma ZeroingClosedPort(rsc: Resource, replies: seq<seq<byte>>)
    requires rsc != Serial(true)
    ensures ZeroedOutputs(rsc, replies) == (Fail(if rsc.Unopened? then NoResource else PortNotOpen), [], replies)
  {
  }

  class AnalogDaq {
    const port: string
    const driver: Device

    constructor(port: string, wire: Wire)
      ensures this.port == port && fresh(driver)
      ensures driver.port == port && driver.present == wire.present
      ensures driver.rsc == Unopened && driver.sent == [] && driver.replies == wire.replies
    {
      this.port := port;
      driver := new Device(port, wire);
    }

    method SetOutputVoltage(channel: int, volts: real) returns (r: Outcome<Error>)
      modifies driver`sent, driver`replies
      ensures driver.Exchanged(SetOutMessage(channel, OutputCode(volts)))
      ensures r == Exchange(old(driver.rsc), SetOutMessage(channel, OutputCode(volts)), old(driver.replies)).ToOutcome()
    {
      var ans := driver.SetAnalogOutput(channel, OutputCode(volts));
      r := ans.ToOutcome();
    }

    method GetOutputVoltage(channel: int) returns (r: Result<real, Error>)
      modifies driver`sent, driver`replies
      ensures driver.Exchanged(GetOutMessage(channel))
      ensures r == AsCode(Exchange(old(driver.rsc), GetOutMessage(channel), old(driver.replies))).Map(OutputVolts)
    {
      var code := driver.GetAnalogOutput(channel);
      r := code.Map(OutputVolts);
    }

    method GetInputVoltage(channel: int) returns (r: Result<real, Error>)
      modifies driver`sent, driver`replies
      ensures driver.Exchanged(MeasMessage(channel))
      ensures r == AsCode(Exchange(old(driver.rsc), MeasMessage(channel), old(driver.replies))).Map(InputVolts)
    {
      var code := driver.GetAnalogInput(channel);
      r := code.Map(InputVolts);
    }

    /** Sets channel 0 and then channel 1 to 0 V, stopping at the first
        failure; the port itself is left as it is. */
    method ZeroOutputs() returns (r: Outcome<Error>)
      modifies driver`sent, driver`replies
      ensures var z := ZeroedOutputs(old(driver.rsc), old(driver.replies));
        r == z.0 && driver.sent == old(driver.sent) + z.1 && driver.replies == z.2
    {
      ghost var sent0, replies0 := driver.sent, driver.replies;
      ghost var m0, m1 := SetOutMessage(0, OutputCode(0.0)), SetOutMessage(1, OutputCode(0.0));
      ZeroRequests();
      r := SetOutputVoltage(0, 0.0);
      if r.Fail? {
        return;
      }
      assert driver.rsc == Serial(true) && driver.sent == sent0 + [Frame(m0).value];
      r := SetOutputVoltage(1, 0.0);
      assert driver.sent == sent0 + [Frame(m0).value, Frame(m1).value];
    }

    /** Opens the driver, then sets channel 0 and then channel 1 to 0 V. */
    method Initialize() returns (r: Outcome<Error>)
      modifies driver`rsc, driver`sent, driver`replies
      ensures !driver.present ==> r == Fail(PortUnavailable) && unchanged(driver)
      ensures driver.present ==> driver.rsc == Serial(true)
      ensures driver.present ==>
        var z := ZeroedOutputs(Serial(true), old(driver.replies));
        r == z.0 && driver.sent == old(driver.sent) + z.1 && driver.replies == z.2
    {
      r := driver.Initialize();
      if r.Fail? {
        return;
      }
      r := ZeroOutputs();
    }

    /** Sets both outputs to 0 V, then closes the driver; a failure on the
        way leaves the port as it was. On a never-initialized driver the
        first write already fails. */
    method Finalize() returns (r: Outcome<Error>)
      modifies driver`rsc, driver`sent, driver`replies
      ensures var z := ZeroedOutputs(old(driver.rsc), old(driver.replies));
        r == z.0 && driver.sent == old(driver.sent) + z.1 && driver.replies == z.2
      ensures driver.rsc == if r.Pass? then Closed(old(driver.rsc)) else old(driver.rsc)
    {
      r := ZeroOutputs();
      if r.Pass? {
        driver.Finalize();
      }
    }
  }
}
