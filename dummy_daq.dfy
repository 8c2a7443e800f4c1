/** The simulated DAQ (PFTL/model/dummy_daq.py): reads return fresh random
    values in [0, 1) V and everything else is inherited from the base, so
    writing an output has no effect at all. Inheritance is modelled by
    delegation to a `DaqBase` holding the port. */
module DummyDaq {
  import opened Wrappers
  import opened BaseDaq

  class DummyDaq {
    const base: DaqBase

    constructor(port: string)
      ensures base.port == port && fresh(base)
    {
      base := new DaqBase(port);
    }

    /** Inherited: does nothing. */
    method Initialize()
      ensures unchanged(this, base)
    {
      base.Initialize();
    }

    /** Inherited: returns `None`. */
    method Idn() returns (r: Option<string>)
      ensures r == None
    {
      r := base.Idn();
    }

    /** A draw of `random()` in volts: some value in [0, 1), whatever the channel. */
    method GetInputVoltage(channel: int) returns (v: real)
      ensures 0.0 <= v < 1.0
    {
      v :| 0.0 <= v < 1.0;
    }

    /** Inherited: does nothing, so a later read of the output does not see it. */
    method SetOutputVoltage(channel: int, volts: real)
      ensures unchanged(this, base)
    {
      base.SetOutputVoltage(channel, volts);
    }

    /** A fresh draw of `random()` in volts, unrelated to any value set. */
    method GetOutputVoltage(channel: int) returns (v: real)
      ensures 0.0 <= v < 1.0
    {
      v :| 0.0 <= v < 1.0;
    }

    /** Inherited: does nothing. */
    method Finalize()
      ensures unchanged(this, base)
    {
      base.Finalize();
    }

    /** Inherited `str()`. */
    function Str(): (s: string)
      ensures "DAQ on port: " <= s && s[|"DAQ on port: "|..] == base.port
    {
      base.Str()
    }
  }
}
