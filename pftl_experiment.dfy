/** The I-V experiment of PFTL/model/experiment.py: it loads its
    configuration and DAQ, sweeps the output voltage while measuring the
    current through a resistor, and saves the table under a fresh numbered
    file name.

    The thread that runs the scan and the user who stops it are not
    modelled as threads: `DoScan` takes the step boundary at which the
    stop request is seen (`stopAt`), and `Finalize` reports a scan still
    marked running instead of polling forever. */
module PftlExperiment {
  import opened Wrappers
  import opened Failures
  import opened PyText
  import opened PftlDaq
  import opened Scan
  import opened Daqs
  import DD = DummyDaq
  import AD = AnalogDaq

  /** A table after `k` completed steps that measured `inputs`: slot
      `j < k` holds `inputs[j]` divided by the resistance, later slots still
      hold zero, and `last` is the last slot written. */
  ghost predicate Tabled(table: seq<real>, k: nat, inputs: seq<real>, last: real, resistance: Option<real>)
  {
    && |inputs| == k <= |table|
    && (k > 0 ==>
          && resistance.Some? && resistance.value != 0.0
          && (forall j :: 0 <= j < k ==> table[j] == inputs[j] / resistance.value)
          && last == table[k - 1])
    && (forall j :: k <= j < |table| ==> table[j] == 0.0)
  }

  /** Whether the configured resistance can divide a measurement. */
  predicate UsableResistance(cfg: Config)
  {
    cfg.daq.resistance.Some? && cfg.daq.resistance.value != 0.0
  }

  /** The exception `e` of a step that failed after the calls `tail`: a
      step that measured fails only for want of a usable resistance, one
      that did not with the DAQ's own exception. */
  predicate StepFailure(cfg: Config, tail: seq<Call>, e: Error)
  {
    if |tail| == 3 && tail[2].GetInput? && tail[2].reading.Some?
    then !UsableResistance(cfg) && e == (if cfg.daq.resistance.None? then MissingConfig else ZeroResistance)
    else 0 < |tail| && FromDaq(e)
  }

  /** How a sweep on a loaded DAQ ends in the exception `e` with the cursor
      at `index`: a step before the stop boundary failed, and `tail` holds
      its calls; or the step just completed slept a negative delay. */
  predicate SweepFailure(cfg: Config, stopAt: nat, index: nat, tail: seq<Call>, e: Error)
  {
    || (index < stopAt && StepFailure(cfg, tail, e))
    || (tail == [] && e == NegativeDelay && cfg.scan.delay < 0.0 && 0 < index <= stopAt)
  }

  /** The naming loop of `save_data`: `stem_0001.suffix`, `stem_0002.suffix`,
      … until a name is not among `existing`. The loop re-forms the name it
      tried first, so `stem_0001.suffix` is tested twice. */
  method FreeName(stem: string, suffix: string, existing: set<string>) returns (name: string, n: nat)
    ensures FirstFree(stem, suffix, existing, n) && name == Numbered(stem, suffix, n)
  {
    n := 1;
    var i: nat := 1;
    name := Numbered(stem, suffix, i);
    while name in existing
      invariant 1 <= i <= |existing| + 2
      invariant n == (if i == 1 then 1 else i - 1) && name == Numbered(stem, suffix, n)
      invariant forall j :: 1 <= j < n ==> Numbered(stem, suffix, j) in existing
      decreases |existing| + 2 - i
    {
      AllTakenBound(stem, suffix, n, existing);
      name := Numbered(stem, suffix, i);
      n := i;
      i := i + 1;
    }
  }

  class Experiment {
    const configFile: string
    var config: Option<Config>
    var isRunning: bool
    var daq: Option<Daq>
    /** The swept voltages, in V. */
    var scanRange: seq<real>
    /** The measured values, one slot per voltage. */
    var scanData: array<real>
    /** Whether `scanData` is in A. A fresh experiment's one-slot table is
        in V; the set-up of a scan replaces it with a table in A. */
    var inAmps: bool
    var lastMeasured: real
    var voltageOut: real
    var keepRunning: bool
    /** `current_scan_index`: the number of slots written by the sweep. */
    var index: nat

    /** The table is rectangular and the cursor stays inside it. */
    ghost predicate Valid()
      reads this
    {
      scanData.Length == |scanRange| && index <= scanData.Length
    }

    /** The sweep's results so far: see `Tabled`. */
    ghost predicate Stored(cfg: Config, outs: seq<real>, inputs: seq<real>)
      reads this, scanData
    {
      Valid() && |outs| == index && Tabled(scanData[..], index, inputs, lastMeasured, cfg.daq.resistance)
    }

    /** What a call on the loaded DAQ may change. */
    function DaqObjects(): set<object>
      reads this
    {
      if daq.Some? then Objects(daq.value) else {}
    }

    /** A fresh experiment: no configuration, no DAQ, not running, a
        one-sample table holding zero. */
    constructor(configFile: string)
      ensures this.configFile == configFile && config == None && daq == None
      ensures !isRunning && !keepRunning && index == 0
      ensures scanRange == [0.0] && fresh(scanData) && scanData[..] == [0.0]
      ensures lastMeasured == 0.0 && voltageOut == 0.0 && !inAmps
      ensures Valid()
    {
      this.configFile := configFile;
      config := None;
      isRunning := false;
      daq := None;
      scanRange := [0.0];
      scanData := new real[1](_ => 0.0);
      inAmps := false;
      lastMeasured := 0.0;
      voltageOut := 0.0;
      keepRunning := false;
      index := 0;
    }

    /** Stores the parsed configuration file (`None` for an empty one). */
    method LoadConfig(data: Option<Config>)
      modifies this`config
      ensures config == data
    {
      config := data;
    }

    /** Builds the DAQ the configuration names, stores it, then initializes
        it. The real DAQ's wire is given as `wire`. */
    method LoadDaq(wire: Wire) returns (r: Outcome<Error>)
      modifies this`daq
      ensures config.None? ==> r == Fail(MissingConfig) && daq == old(daq)
      ensures config.Some? && config.value.daq.name !in {"DummyDaq", "AnalogDaq"} ==>
        r == Fail(UnsupportedDaq(config.value.daq.name)) && daq == old(daq)
      ensures config.Some? && config.value.daq.name == "DummyDaq" ==>
        && r == Pass && daq.Some? && daq.value.Dummy? && fresh(daq.value.dummy)
        && daq.value.dummy.base.port == config.value.daq.port
      ensures config.Some? && config.value.daq.name == "AnalogDaq" ==>
        && daq.Some? && daq.value.Analog?
        && var a := daq.value.analog;
        && fresh(a) && fresh(a.driver) && a.port == config.value.daq.port && a.driver.port == a.port
        && (!wire.present ==> r == Fail(PortUnavailable) && a.driver.rsc == Unopened && a.driver.sent == [])
        && (wire.present ==> a.driver.rsc == Serial(true))
        && (wire.present ==>
              var z := AD.ZeroedOutputs(Serial(true), wire.replies);
              r == z.0 && a.driver.sent == z.1 && a.driver.replies == z.2)
    {
      if config.None? {
        return Fail(MissingConfig);
      }
      var name, port := config.value.daq.name, config.value.daq.port;
      var d: Daq;
      if name == "DummyDaq" {
        var dm := new DD.DummyDaq(port);
        d := Dummy(dm);
      } else if name == "AnalogDaq" {
        var a := new AD.AnalogDaq(port, wire);
        d := Analog(a);
      } else {
        return Fail(UnsupportedDaq(name));
      }
      daq := Some(d);
      r := Initialize(d);
    }

    /** One pass of the sweep's loop body, at the cursor: set the output to
        the cursor's voltage, read it back into `voltageOut`, measure the
        input, store input / resistance at the cursor, advance the cursor,
        sleep the delay. `outs` and `inputs` are what the earlier steps read;
        `made` lists this step's DAQ calls, `back` and `input` what its two
        reads returned. */
    method ScanStep(d: Daq, cfg: Config, ghost outs: seq<real>, ghost inputs: seq<real>)
      returns (r: Outcome<Error>, ghost back: Option<real>, ghost input: Option<real>, ghost made: seq<Call>)
      requires Stored(cfg, outs, inputs) && index < |scanRange|
      modifies this`voltageOut, this`lastMeasured, this`index, scanData, Objects(d)
      ensures 1 <= |made| <= 3
      ensures made <= StepCalls(cfg.scan.channelOut, cfg.scan.channelIn, scanRange[old(index)], back, input)
      ensures back.Some? <==> |made| == 3
      ensures input.Some? ==> back.Some?
      ensures voltageOut == if back.Some? then back.value else old(voltageOut)
      ensures Ready(d) == old(Ready(d))
      ensures !old(Ready(d)) ==> |made| == 1 && index == old(index)
      ensures d.Dummy? ==> && back.Some? && input.Some?
                           && 0.0 <= back.value < 1.0 && 0.0 <= input.value < 1.0
      ensures input.Some? ==>
        (index == old(index) + 1 <==> cfg.daq.resistance.Some? && cfg.daq.resistance.value != 0.0)
      ensures index == old(index) || index == old(index) + 1
      ensures index == old(index) ==>
        && Stored(cfg, outs, inputs)
        && r.Fail?
        && (input.Some? ==> r.error == if cfg.daq.resistance.None? then MissingConfig else ZeroResistance)
        && (input.None? ==> FromDaq(r.error))
      ensures index == old(index) + 1 ==>
        && back.Some? && input.Some?
        && made == StepCalls(cfg.scan.channelOut, cfg.scan.channelIn, scanRange[old(index)], back, input)
        && scanData[old(index)] == input.value / cfg.daq.resistance.value
        && Stored(cfg, outs + [back.value], inputs + [input.value])
        && r == if cfg.scan.delay >= 0.0 then Pass else Fail(NegativeDelay)
    {
      var measured, out;
      assert this !in Objects(d) && scanData !in Objects(d);
      measured, out, made := SweepPoint(d, cfg.scan.channelOut, cfg.scan.channelIn, scanRange[index]);
      back, input := out, measured.ToOption();
      r := Record(cfg, outs, inputs, out, measured);
    }

    /** The rest of a step once the DAQ has answered: the value read back
        goes to `voltageOut`; a measurement is divided by the resistance
        and stored at the cursor, which then advances; last, the delay is
        checked. */
    method Record(cfg: Config, ghost outs: seq<real>, ghost inputs: seq<real>, back: Option<real>, measured: Result<real, Error>)
      returns (r: Outcome<Error>)
      requires Stored(cfg, outs, inputs) && index < |scanRange|
      requires measured.Ok? ==> back.Some?
      modifies this`voltageOut, this`lastMeasured, this`index, scanData
      ensures voltageOut == if back.Some? then back.value else old(voltageOut)
      ensures measured.Ok? ==>
        (index == old(index) + 1 <==> cfg.daq.resistance.Some? && cfg.daq.resistance.value != 0.0)
      ensures index == old(index) || index == old(index) + 1
      ensures index == old(index) ==>
        && Stored(cfg, outs, inputs)
        && r.Fail?
        && (measured.Err? ==> r.error == measured.error)
        && (measured.Ok? ==> r.error == if cfg.daq.resistance.None? then MissingConfig else ZeroResistance)
      ensures index == old(index) + 1 ==>
        && back.Some? && measured.Ok?
        && scanData[old(index)] == measured.value / cfg.daq.resistance.value
        && Stored(cfg, outs + [back.value], inputs + [measured.value])
        && r == if cfg.scan.delay >= 0.0 then Pass else Fail(NegativeDelay)
    {
      var k, arr := index, scanData;
      if back.Some? {
        voltageOut := back.value;
      }
      if measured.Err? {
        return Fail(measured.error);
      }
      var volts := measured.value;
      match cfg.daq.resistance {
        case None =>
          return Fail(MissingConfig);
        case Some(ohms) =>
          if ohms == 0.0 {
            return Fail(ZeroResistance);
          }
          var current := volts / ohms;
          lastMeasured := current;
          arr[k] := current;
          index := k + 1;
      }
      if cfg.scan.delay < 0.0 {
        return Fail(NegativeDelay);
      }
      r := Pass;
    }

    /** The invariant of the sweep's loop. The completed steps read `outs`
        back and measured `inputs`, and the table holds their results. Their
        calls, followed by the `tail` of a failed step, are `made`. A cleared
        `keepRunning` means the stop request was seen at boundary `stopAt`.
        The DAQ keeps the readiness `ready` it had when the sweep began, and
        without a DAQ nothing ran and the one failure is `NoDaq`. */
    ghost predicate Swept(cfg: Config, stopAt: nat, ready: bool, r: Outcome<Error>,
                          outs: seq<real>, inputs: seq<real>, made: seq<Call>, tail: seq<Call>)
      reads this, scanData, DaqObjects()
    {
      && index <= stopAt && Stored(cfg, outs, inputs)
      && made == ScanCalls(cfg.scan.channelOut, cfg.scan.channelIn, scanRange[..index], outs, inputs) + tail
      && |tail| <= 3 && (r.Pass? ==> tail == [])
      && (tail != [] ==> index < |scanRange| && StepPrefix(tail, cfg.scan.channelOut, cfg.scan.channelIn, scanRange[index]))
      && (!keepRunning ==> r.Pass? && index == stopAt && stopAt < |scanRange|)
      && (r.Pass? && index > 0 ==> voltageOut == outs[index - 1])
      && (daq.Some? ==> Ready(daq.value) == ready)
      && (daq.None? ==> made == [] && index == 0 && (r.Fail? ==> r.error == NoDaq && 0 < |scanRange| && 0 < stopAt))
      && (daq.Some? && r.Fail? ==> SweepFailure(cfg, stopAt, index, tail, r.error))
      && (daq.Some? && daq.value.Dummy? && UsableResistance(cfg) && cfg.scan.delay >= 0.0 ==> r.Pass?)
    }

    /** One turn of the sweep's loop at a step boundary: the stop request
        is checked first (it is seen at boundary `stopAt`) and clears
        `keepRunning`; otherwise the step runs on the loaded DAQ, and without
        one fails at once. The turn keeps the loop's invariant and either
        advances the cursor or ends the loop. */
    method SweepStep(cfg: Config, stopAt: nat, ghost ready: bool, ghost outs: seq<real>, ghost inputs: seq<real>, ghost made: seq<Call>)
      returns (r: Outcome<Error>, ghost outs': seq<real>, ghost inputs': seq<real>, ghost made': seq<Call>, ghost tail: seq<Call>)
      requires keepRunning && index < |scanRange| && Swept(cfg, stopAt, ready, Pass, outs, inputs, made, [])
      modifies this`voltageOut, this`lastMeasured, this`index, this`keepRunning, scanData, DaqObjects()
      ensures Swept(cfg, stopAt, ready, r, outs', inputs', made', tail)
      ensures index == old(index) || index == old(index) + 1
      ensures index == old(index) && keepRunning ==> r.Fail?
    {
      outs', inputs', made', tail := outs, inputs, made, [];
      if index == stopAt {
        keepRunning := false;
        return Pass, outs', inputs', made', tail;
      }
      if daq.None? {
        return Fail(NoDaq), outs', inputs', made', tail;
      }
      assert made == ScanCalls(cfg.scan.channelOut, cfg.scan.channelIn, scanRange[..index], outs, inputs);
      r, outs', inputs', made', tail := Advance(cfg, ready, outs, inputs, made);
    }

    /** The step itself, on the loaded DAQ: `made` grows by this step's
        calls, which are the completed ones when the cursor advances and
        are kept in `tail` when the step failed. */
    method Advance(cfg: Config, ghost ready: bool, ghost outs: seq<real>, ghost inputs: seq<real>, ghost made: seq<Call>)
      returns (r: Outcome<Error>, ghost outs': seq<real>, ghost inputs': seq<real>, ghost made': seq<Call>, ghost tail: seq<Call>)
      requires keepRunning && index < |scanRange| && daq.Some? && Stored(cfg, outs, inputs)
      requires made == ScanCalls(cfg.scan.channelOut, cfg.scan.channelIn, scanRange[..index], outs, inputs)
      requires index > 0 ==> voltageOut == outs[index - 1]
      requires Ready(daq.value) == ready
      modifies this`voltageOut, this`lastMeasured, this`index, scanData, DaqObjects()
      ensures keepRunning && daq == old(daq) && Ready(daq.value) == ready
      ensures Stored(cfg, outs', inputs')
      ensures made' == ScanCalls(cfg.scan.channelOut, cfg.scan.channelIn, scanRange[..index], outs', inputs') + tail
      ensures |tail| <= 3 && (r.Pass? ==> tail == [])
      ensures (tail != [] ==> index < |scanRange| && StepPrefix(tail, cfg.scan.channelOut, cfg.scan.channelIn, scanRange[index]))
      ensures r.Pass? && index > 0 ==> voltageOut == outs'[index - 1]
      ensures index == old(index) ==> r.Fail?
      ensures index == old(index) || index == old(index) + 1
      ensures r.Fail? ==>
        || (index == old(index) && StepFailure(cfg, tail, r.error))
        || (tail == [] && r.error == NegativeDelay && cfg.scan.delay < 0.0 && index == old(index) + 1)
      ensures daq.value.Dummy? && UsableResistance(cfg) && cfg.scan.delay >= 0.0 ==> r.Pass?
    {
      var k := index;
      ghost var back, input, calls;
      assert this !in Objects(daq.value);
      r, back, input, calls := ScanStep(daq.value, cfg, outs, inputs);
      outs', inputs', made', tail := outs, inputs, made + calls, [];
      if index == k + 1 {
        ScanCallsNext(cfg.scan.channelOut, cfg.scan.channelIn, scanRange, k, outs, inputs, back.value, input.value);
        outs', inputs' := outs + [back.value], inputs + [input.value];
      } else {
        tail := calls;
        PrefixOfStep(calls, cfg.scan.channelOut, cfg.scan.channelIn, scanRange[k], back, input);
        assert |calls| == 3 ==> calls[2] == GetInput(cfg.scan.channelIn, input);
      }
    }

    /** The loop of `do_scan` over the voltages set up in `scanRange`, from
        a zeroed table and the cursor at 0: before each step the stop
        request is checked (it is seen at step boundary `stopAt`), then the
        step runs on the loaded DAQ; the first exception ends the loop.
        `ready` tells whether the DAQ could answer when the sweep began. */
    method Sweep(cfg: Config, stopAt: nat, ghost ready: bool)
      returns (r: Outcome<Error>, ghost made: seq<Call>, ghost outs: seq<real>, ghost inputs: seq<real>, ghost tail: seq<Call>)
      requires Stored(cfg, [], []) && index == 0 && keepRunning
      requires ready == (daq.Some? && Ready(daq.value))
      modifies this`voltageOut, this`lastMeasured, this`index, this`keepRunning, scanData, DaqObjects()
      ensures scanRange == old(scanRange) && scanData == old(scanData) && daq == old(daq)
      ensures daq.Some? ==> Ready(daq.value) == ready
      ensures index <= stopAt && |outs| == index && scanData.Length == |scanRange|
      ensures Tabled(scanData[..], index, inputs, lastMeasured, cfg.daq.resistance)
      ensures made == ScanCalls(cfg.scan.channelOut, cfg.scan.channelIn, scanRange[..index], outs, inputs) + tail
      ensures |tail| <= 3 && (r.Pass? ==> tail == [])
      ensures (tail != [] ==> index < |scanRange| && StepPrefix(tail, cfg.scan.channelOut, cfg.scan.channelIn, scanRange[index]))
      ensures r.Pass? ==> index == (if |scanRange| <= stopAt then |scanRange| else stopAt)
      ensures r.Pass? ==> keepRunning == (|scanRange| <= stopAt)
      ensures r.Pass? && index > 0 ==> voltageOut == outs[index - 1]
      ensures daq.None? ==> made == [] && index == 0
      ensures daq.None? ==> (r.Fail? <==> 0 < |scanRange| && 0 < stopAt) && (r.Fail? ==> r.error == NoDaq)
      ensures daq.Some? && r.Fail? ==> SweepFailure(cfg, stopAt, index, tail, r.error)
      ensures daq.Some? && daq.value.Dummy? && UsableResistance(cfg) && cfg.scan.delay >= 0.0 ==> r.Pass?
    {
      made, outs, inputs, tail := [], [], [], [];
      r := Pass;
      while r.Pass? && keepRunning && index < |scanRange|
        invariant Swept(cfg, stopAt, ready, r, outs, inputs, made, tail)
        decreases |scanRange| - index, keepRunning, r.Pass?
      {
        r, outs, inputs, made, tail := SweepStep(cfg, stopAt, ready, outs, inputs, made);
      }
    }

    /** The set-up of `do_scan`: the voltages to sweep, a zeroed table for
        them, the cursor at its start and the stop flag cleared. */
    method Setup(cfg: Config)
      requires cfg.scan.numSteps >= 0
      modifies this`scanRange, this`scanData, this`inAmps, this`index, this`keepRunning
      ensures scanRange == Linspace(cfg.scan.start, cfg.scan.stop, cfg.scan.numSteps) && fresh(scanData) && inAmps
      ensures Stored(cfg, [], []) && index == 0 && keepRunning
      ensures daq == old(daq) && (daq.Some? ==> Ready(daq.value) == old(Ready(daq.value)))
    {
      var n: nat := cfg.scan.numSteps;
      scanRange := Linspace(cfg.scan.start, cfg.scan.stop, n);
      scanData := new real[n](_ => 0.0);
      inAmps := true;
      index := 0;
      keepRunning := true;
    }

    /** The scan proper, once `do_scan` has marked the scan running and
        found a configuration with `cfg.scan.numSteps >= 0` steps: the set-up,
        the sweep, and, when the sweep ends without an exception, the scan
        marked as no longer running. */
    method Run(cfg: Config, stopAt: nat) returns (r: Outcome<Error>, ghost made: seq<Call>, ghost outs: seq<real>, ghost inputs: seq<real>, ghost tail: seq<Call>)
      requires isRunning && cfg.scan.numSteps >= 0
      modifies this`scanRange, this`scanData, this`inAmps, this`index, this`keepRunning, this`isRunning
      modifies this`voltageOut, this`lastMeasured, DaqObjects()
      ensures scanRange == Linspace(cfg.scan.start, cfg.scan.stop, cfg.scan.numSteps) && fresh(scanData) && inAmps
      ensures r.Pass? <==> !isRunning
      ensures !r.Pass? ==> isRunning == old(isRunning)
      ensures index <= stopAt && |outs| == index && scanData.Length == |scanRange|
      ensures Tabled(scanData[..], index, inputs, lastMeasured, cfg.daq.resistance)
      ensures made == ScanCalls(cfg.scan.channelOut, cfg.scan.channelIn, scanRange[..index], outs, inputs) + tail
      ensures |tail| <= 3 && (r.Pass? ==> tail == [])
      ensures (tail != [] ==> index < |scanRange| && StepPrefix(tail, cfg.scan.channelOut, cfg.scan.channelIn, scanRange[index]))
      ensures r.Pass? ==> index == (if |scanRange| <= stopAt then |scanRange| else stopAt)
      ensures r.Pass? ==> keepRunning == (|scanRange| <= stopAt)
      ensures r.Pass? && index > 0 ==> voltageOut == outs[index - 1]
      ensures daq.None? ==> made == [] && index == 0
      ensures daq.None? ==> (r.Fail? <==> 0 < |scanRange| && 0 < stopAt) && (r.Fail? ==> r.error == NoDaq)
      ensures daq.Some? ==> Ready(daq.value) == old(Ready(daq.value))
      ensures daq.Some? && r.Fail? ==> SweepFailure(cfg, stopAt, index, tail, r.error)
      ensures daq.Some? && daq.value.Dummy? && UsableResistance(cfg) && cfg.scan.delay >= 0.0 ==> r.Pass?
    {
      Setup(cfg);
      r, made, outs, inputs, tail := Sweep(cfg, stopAt, daq.Some? && Ready(daq.value));
      if r.Pass? {
        isRunning := false;
      }
    }

    /** `do_scan`, with the stop request first seen at step boundary
        `stopAt` (never, when the sweep has at most `stopAt` steps). A scan
        already running returns at once. Otherwise the scan is marked
        running, the configuration is checked, the voltages and a zeroed
        table are set up and the sweep runs; only a sweep that ends without
        an exception clears `isRunning`. */
    method DoScan(stopAt: nat) returns (r: Outcome<Error>, ghost made: seq<Call>, ghost outs: seq<real>, ghost inputs: seq<real>, ghost tail: seq<Call>)
      requires Valid()
      modifies this, DaqObjects()
      ensures scanData.Length == |scanRange| && index <= scanData.Length
      ensures config == old(config) && daq == old(daq)
      ensures old(isRunning) ==> r == Pass && made == [] && unchanged(this) && unchanged(DaqObjects())
      ensures !old(isRunning) && (config.None? || config.value.scan.numSteps < 0) ==>
        && r == Fail(if config.None? then MissingConfig else NegativeSteps(config.value.scan.numSteps))
        && isRunning && made == [] && unchanged(DaqObjects())
        && scanRange == old(scanRange) && scanData == old(scanData) && inAmps == old(inAmps)
        && index == old(index) && keepRunning == old(keepRunning)
      ensures !old(isRunning) && config.Some? && config.value.scan.numSteps >= 0 ==>
        var cfg := config.value;
        && scanRange == Linspace(cfg.scan.start, cfg.scan.stop, cfg.scan.numSteps) && fresh(scanData)
        && inAmps && (r.Pass? <==> !isRunning)
      ensures !old(isRunning) && config.Some? && config.value.scan.numSteps >= 0 ==>
        index <= stopAt && |outs| == index
        && Tabled(scanData[..], index, inputs, lastMeasured, config.value.daq.resistance)
      ensures !old(isRunning) && config.Some? && config.value.scan.numSteps >= 0 ==>
        var cfg := config.value;
        made == ScanCalls(cfg.scan.channelOut, cfg.scan.channelIn, scanRange[..index], outs, inputs) + tail
      ensures |tail| <= 3 && (r.Pass? ==> tail == [])
      ensures tail != [] ==>
        && config.Some? && index < |scanRange|
        && StepPrefix(tail, config.value.scan.channelOut, config.value.scan.channelIn, scanRange[index])
      ensures !old(isRunning) && r.Pass? ==>
        && index == (if |scanRange| <= stopAt then |scanRange| else stopAt)
        && keepRunning == (|scanRange| <= stopAt)
        && (index > 0 ==> voltageOut == outs[index - 1])
      ensures !old(isRunning) && config.Some? && config.value.scan.numSteps >= 0 && daq.None? ==>
        && made == [] && index == 0
        && (r.Fail? <==> 0 < |scanRange| && 0 < stopAt) && (r.Fail? ==> r.error == NoDaq)
      ensures daq.Some? ==> Ready(daq.value) == old(Ready(daq.value))
      ensures !old(isRunning) && config.Some? && config.value.scan.numSteps >= 0 && daq.Some? && r.Fail? ==>
        SweepFailure(config.value, stopAt, index, tail, r.error)
      ensures !old(isRunning) && config.Some? && config.value.scan.numSteps >= 0 && daq.Some? && daq.value.Dummy? ==>
        (UsableResistance(config.value) && config.value.scan.delay >= 0.0 ==> r.Pass? && !isRunning)
      ensures !old(isRunning) && config.Some? && config.value.scan.numSteps >= 0 && stopAt == 0 ==>
        r.Pass? && !isRunning && index == 0
    {
      made, outs, inputs, tail := [], [], [], [];
      if isRunning {
        return Pass, made, outs, inputs, tail;
      }
      isRunning := true;
      if config.None? {
        return Fail(MissingConfig), made, outs, inputs, tail;
      }
      var cfg := config.value;
      if cfg.scan.numSteps < 0 {
        return Fail(NegativeSteps(cfg.scan.numSteps)), made, outs, inputs, tail;
      }
      r, made, outs, inputs, tail := Run(cfg, stopAt);
    }
    /** `stop_scan`: asks a running sweep to stop at its next step boundary. */
    method StopScan()
      modifies this`keepRunning
      ensures !keepRunning
    {
      keepRunning := false;
    }

    /** `save_data`, with `existing` the names already present in the dated
        saving folder. The data file is `stem_NNNN.suffix` for the smallest
        free `NNNN` from 0001 on (`n`), the metadata file the same name with
        the suffix `.yml`. The table has one row per voltage, whether or not
        the sweep reached it: the voltage in V and the current in mA. A table
        still in V (no scan has been set up) cannot be converted to mA. */
    method SaveData(existing: set<string>) returns (r: Result<Saved, Error>, ghost n: nat)
      requires Valid()
      requires config.Some? ==> PlainName(config.value.saving.filename)
      ensures config.None? ==> r == Err(MissingConfig)
      ensures config.Some? && !inAmps ==> r == Err(WrongUnits)
      ensures config.Some? && inAmps ==>
        var f := config.value.saving.filename;
        && r.Ok? && FirstFree(Stem(f), Suffix(f), existing, n)
        && r.value.dataFile == Numbered(Stem(f), Suffix(f), n)
        && r.value.metadataFile == WithSuffix(r.value.dataFile, ".yml")
        && r.value.metadata == config.value
      ensures r.Ok? ==> r.value.dataFile !in existing
      ensures r.Ok? ==> r.value.header == "Scan range in 'V', Scan Data in 'mA'"
      ensures r.Ok? ==>
        && |r.value.rows| == |scanRange|
        && forall k :: 0 <= k < |scanRange| ==> r.value.rows[k] == (scanRange[k], 1000.0 * scanData[k])
    {
      n := 1;
      if config.None? {
        return Err(MissingConfig), n;
      }
      var cfg := config.value;
      if !inAmps {
        return Err(WrongUnits), n;
      }
      var volts, amps := scanRange, scanData[..];
      var rows := seq(|amps|, k requires 0 <= k < |amps| && k < |volts| => (volts[k], 1000.0 * amps[k]));
      var name;
      name, n := FreeName(Stem(cfg.saving.filename), Suffix(cfg.saving.filename), existing);
      r := Ok(Saved(name, "Scan range in 'V', Scan Data in 'mA'", rows, WithSuffix(name, ".yml"), cfg));
    }

    /** `finalize`: stops the scan, waits for it to end, then finalizes the
        DAQ. A scan still marked running here is one that an exception ended,
        and the wait would never return: this is reported as `StillRunning`
        and the DAQ is left alone. */
    method Finalize() returns (r: Outcome<Error>)
      modifies this`keepRunning, DaqObjects()
      ensures !keepRunning
      ensures isRunning ==> r == Fail(StillRunning) && unchanged(DaqObjects())
      ensures !isRunning && daq.None? ==> r == Fail(NoDaq)
      ensures !isRunning && daq.Some? && daq.value.Dummy? ==> r == Pass
      ensures !isRunning && daq.Some? && daq.value.Analog? ==>
        var drv := daq.value.analog.driver;
        var z := AD.ZeroedOutputs(old(drv.rsc), old(drv.replies));
        && r == z.0 && drv.sent == old(drv.sent) + z.1 && drv.replies == z.2
        && drv.rsc == if r.Pass? then Closed(old(drv.rsc)) else old(drv.rsc)
    {
      StopScan();
      if isRunning {
        return Fail(StillRunning);
      }
      if daq.None? {
        return Fail(NoDaq);
      }
      r := Daqs.Finalize(daq.value);
    }
  }
}
