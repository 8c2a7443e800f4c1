/** The DAQ interface every model implements (PFTL/model/base_daq.py): a
    `port` set by the constructor and methods that by default do nothing and
    return `None`. */
module BaseDaq {
  import opened Wrappers

  /** The text `str()` gives for a DAQ on `port`. */
  function Describe(port: string): (s: string)
    ensures |s| == |"DAQ on port: "| + |port|
    ensures "DAQ on port: " <= s && s[|"DAQ on port: "|..] == port
  {
    "DAQ on port: " + port
  }

  /** The description names the port: different ports are described differently. */
  lemma DescribeInjective(p: string, q: string)
    requires Describe(p) == Describe(q)
    ensures p == q
  {
    assert p == Describe(p)[13..];
    assert q == Describe(q)[13..];
  }

  class DaqBase {
    const port: string

    /** Stores the port and nothing else. */
    constructor(port: string)
      ensures this.port == port
    {
      this.port := port;
    }

    /** Does nothing. */
    method Initialize()
      ensures unchanged(this)
    {
    }

    /** Returns `None`. */
    method Idn() returns (r: Option<string>)
      ensures r == None
    {
      r := None;
    }

    /** Returns `None`, whatever the channel. */
    method GetInputVoltage(channel: int) returns (r: Option<real>)
      ensures r == None
    {
      r := None;
    }

    /** Does nothing, whatever the channel and voltage. */
    method SetOutputVoltage(channel: int, volts: real)
      ensures unchanged(this)
    {
    }

    /** Returns `None`, whatever the channel. */
    method GetOutputVoltage(channel: int) returns (r: Option<real>)
      ensures r == None
    {
      r := None;
    }

    /** Does nothing. */
    method Finalize()
      ensures unchanged(this)
    {
    }

    /** `str(daq)`: "DAQ on port: " followed by the port. */
    function Str(): (s: string)
      ensures "DAQ on port: " <= s && s[|"DAQ on port: "|..] == port
    {
      Describe(port)
    }
  }
}
