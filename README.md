# PFTL instrument-control stack in Dafny

This project models the core of the "Python for the Lab" I-V measurement
stack and proves what it does. It has four layers:

- **The serial client of the PFTL DAQ** (`PftlDaq.Device`). It builds the
  requests `*IDN?`, `MEAS:CH{n}?`, `OUT:CH{n} {v}` and `OUT:CH{n}?`. Every
  request goes through `query`, which appends `"\n"`, encodes the message
  as ASCII and writes it. It then reads one line, decodes and strips it, and
  raises on an `ERROR` prefix. The getters parse the answer with `int()`.
  The serial port is an oracle: `replies` lists what the next `readline()`
  calls return, and `sent` logs every `write()`. An exhausted list reads
  as `b""`, which is what a timeout gives.
- **The real DAQ** (`AnalogDaq.AnalogDaq`). It converts volts to a 12-bit
  output code with Python's half-to-even `round`. It reads codes back at
  3.3 V / 4095 on the output and 3.3 V / 1023 on the input. It drives
  both outputs to 0 V after the driver opens and before the driver closes.
- **The DAQ interface and the simulated DAQ** (`BaseDaq.DaqBase`,
  `DummyDaq.DummyDaq`). The simulated DAQ's reads are arbitrary values in
  [0, 1) V. `Daqs` dispatches the experiment's calls to whichever DAQ
  `load_daq` built.
- **The two experiments** (`PftlExperiment.Experiment`,
  `LabExperiment.Experiment`).
  - `do_scan` is a guarded, cancellable sweep over `numpy.linspace` voltages
    into a zero-filled table, with a cursor that advances only after its
    slot is written.
  - The PFTL variant stores current, which is the input divided by the
    configured resistance. The other variant stores the raw input voltage.
  - `save_data` picks a free file name over an abstract set of existing
    names. The two variants pick differently.

The Python built-ins the client depends on are functions in `PyText`:
`str.strip()`, `str(int)`, `f"{i:04d}"` and the ASCII codec exactly, and
`int(str)` on the stripped ASCII answers that are the only texts it is
given here.
`Scan` holds the configuration, `linspace` and the `pathlib` name rules.
Magnitudes are exact `real`s in V, A and s. Exceptions are `Failures.Error`
values carried by `Result`/`Outcome`.

The background thread's `stop_scan` is an input: `stopAt` is the first step
boundary at which the sweep sees `keep_running` false.

The proofs bring out some consequences of the code as written:

- `do_scan` sets `keep_running` back to true, so a stop issued earlier is
  lost.
- An exception in the sweep leaves `is_running` true. `finalize` would then
  poll forever.
- The saved table always has every row, including rows the sweep never
  reached.
- A data file named `*.yml` is overwritten by its own metadata file
  (`Scan.YmlDataIsItsOwnMetadata`).
- The PFTL naming loop tests `stem_0001` twice.

## Model

| member | source | states |
|---|---|---|
| PyText.Strip | PFTL/controller/pftl_daq.py:142 | the result has no whitespace at either end, is one contiguous slice of the line, and everything before and after that slice is whitespace |
| PyText.StripSurrounded | PFTL/controller/pftl_daq.py:142 | any whitespace padding around a trimmed text strips back to exactly that text |
| PyText.StripTrimmed | PFTL/controller/pftl_daq.py:142 | a text without surrounding whitespace is its own strip |
| PyText.StripIdempotent | PFTL/controller/pftl_daq.py:142 | stripping twice is stripping once |
| PyText.NatToDigits | PFTL/controller/pftl_daq.py:84 | `str()` of a non-negative integer is a non-empty digit string with no leading zero |
| PyText.IntToString | PFTL/controller/pftl_daq.py:84 | `str()` of an integer is digits with at most a leading minus sign, ending in a digit |
| PyText.NatToDigitsValue | PFTL/controller/pftl_daq.py:86 | the digits of `n` form a group `int()` accepts, and their value is `n` |
| PyText.ParseIntRoundTrip | PFTL/controller/pftl_daq.py:86 | `int(str(n)) == n` for every integer, negative ones included |
| PyText.ParseNegatedGroup | PFTL/controller/pftl_daq.py:86 | `int()` reads a minus sign followed by a digit group as the negated value of the group |
| PyText.ParseDigitGroup | PFTL/controller/pftl_daq.py:86 | `int()` accepts a bare digit group and returns its value |
| PyText.ParseInt | PFTL/controller/pftl_daq.py:86 | a text `int()` accepts is, once stripped, a digit group with an optional sign, and a negative result comes from a leading minus |
| PyText.LeadingZerosValue | PFTL/model/experiment.py:130 | leading zeros do not change the value of a digit string |
| PyText.LeadingZerosGroup | PFTL/model/experiment.py:130 | a digit group with leading zeros is still a group `int()` accepts |
| PyText.Pad4 | PFTL/model/experiment.py:130 | `{i:04d}` is digits only, at least four of them |
| PyText.Pad4RoundTrip | PFTL/model/experiment.py:130 | `{i:04d}` has at least four digits and `int()` reads it back as `i` |
| PyText.Pad4Injective | PFTL/model/experiment.py:130 | different numbers get different zero-padded texts |
| PyText.Encode | PFTL/controller/pftl_daq.py:139 | encoding succeeds exactly on ASCII text; the bytes are the characters' code points, one per character |
| PyText.Decode | PFTL/controller/pftl_daq.py:142 | decoding succeeds exactly on bytes below 128; the characters are the bytes' code points, one per byte |
| PyText.DecodeEncode | PFTL/controller/pftl_daq.py:139 | decoding the encoding of ASCII text gives the text back |
| PyText.EncodeDecode | PFTL/controller/pftl_daq.py:142 | encoding the decoding of ASCII bytes gives the bytes back |
| PyText.EncodeAppend | PFTL/controller/pftl_daq.py:138-139 | encoding distributes over concatenation, so a framed message is the message's bytes followed by the terminator's |
| PftlDaq.Frame | PFTL/controller/pftl_daq.py:138-139 | a request can be framed iff it is ASCII; its bytes are the message's followed by exactly one byte 10, and they decode to the message plus `"\n"` |
| PftlDaq.Answer | PFTL/controller/pftl_daq.py:141-145 | a decodable line is answered with its stripped text, or, when that text starts with `ERROR`, fails with the error message followed by it; an undecodable line fails with a decoding error; a returned answer has no surrounding whitespace and no `ERROR` prefix |
| PftlDaq.Exchange | PFTL/controller/pftl_daq.py:138-145 | a non-ASCII message fails to encode; an ASCII one fails with `NoResource` on a driver never opened and `PortNotOpen` on a closed one; on an open port the answer is that of the next reply line; every failure is one of the serial client's own exceptions |
| PftlDaq.AsCode | PFTL/controller/pftl_daq.py:86 | a failed request's error passes through; an answer gives a code exactly when `int()` accepts it, and that code is `int()`'s value; otherwise the failure names the answer |
| PftlDaq.IdnMessage | PFTL/controller/pftl_daq.py:67 | the identification request is ASCII, so it always reaches the wire on an open port |
| PftlDaq.MeasMessage | PFTL/controller/pftl_daq.py:84 | every measurement request is ASCII |
| PftlDaq.SetOutMessage | PFTL/controller/pftl_daq.py:104 | every output request is ASCII |
| PftlDaq.GetOutMessage | PFTL/controller/pftl_daq.py:120 | every output readback request is ASCII |
| PftlDaq.MeasMessageChannel | PFTL/controller/pftl_daq.py:84 | a measurement request is `MEAS:CH`, then text that parses back to the channel, then `?` |
| PftlDaq.GetOutMessageChannel | PFTL/controller/pftl_daq.py:120 | an output readback request is `OUT:CH`, then text that parses back to the channel, then `?` |
| PftlDaq.OutChannelHasNoSpace | PFTL/controller/pftl_daq.py:104 | the head `OUT:CH` plus a channel number contains no space |
| PftlDaq.SetOutMessageLayout | PFTL/controller/pftl_daq.py:104 | an output request is `OUT:CH`, `str(channel)`, one space and `str(value)`, and that space is its first one |
| PftlDaq.SetOutMessageFields | PFTL/controller/pftl_daq.py:104 | the two fields either side of the first space of an output request parse back to the channel and the code sent |
| PftlDaq.ErrorReplyRaises | PFTL/controller/pftl_daq.py:143-144 | on an open port, any ASCII request whose stripped reply starts with `ERROR` fails with the full stripped reply in the message; in the getters `int()` never sees that reply |
| PftlDaq.AnswerOfPaddedText | PFTL/controller/pftl_daq.py:141-142 | a line holding a trimmed text followed by whitespace is answered with exactly that text, unless the text starts with `ERROR` |
| PftlDaq.CodeReplyRoundTrip | PFTL/controller/pftl_daq.py:84-87 | a device answering `str(code)` followed by any whitespace, such as `"\r\n"`, is read back as exactly that code |
| PftlDaq.TimeoutReadsAsEmpty | PFTL/controller/pftl_daq.py:141-142 | a read with no reply pending gives the empty answer, not a timeout error; the getters then fail only in `int("")` |
| PftlDaq.ExchangeNeedsOpenPort | PFTL/controller/pftl_daq.py:138-142 | a request that returns an answer, or reaches the device's error check, had an ASCII message and an open port |
| PftlDaq.Device.constructor | PFTL/controller/pftl_daq.py:44-46 | stores the port and does not open it: `rsc` is `None`, nothing has been written, and no reply has been read |
| PftlDaq.Device.Initialize | PFTL/controller/pftl_daq.py:48-56 | the port is open afterwards iff the system lets the serial port be claimed; otherwise the call fails and `rsc` is unchanged |
| PftlDaq.Device.Query | PFTL/controller/pftl_daq.py:125-145 | one framed write and one read happen iff the port is open and the message is ASCII, and never otherwise; the result is the stripped answer or the failure in the order encode, write, read, `ERROR` check |
| PftlDaq.Device.Idn | PFTL/controller/pftl_daq.py:58-67 | sends `*IDN?` through the query path and returns the stripped answer unchanged |
| PftlDaq.Device.GetAnalogInput | PFTL/controller/pftl_daq.py:69-87 | sends the measurement request for the channel and returns `int()` of the answer; an answer that is not an integer fails |
| PftlDaq.Device.SetAnalogOutput | PFTL/controller/pftl_daq.py:89-105 | sends `OUT:CH{channel} {value}` and returns the stripped answer unparsed |
| PftlDaq.Device.GetAnalogOutput | PFTL/controller/pftl_daq.py:107-123 | sends the output readback request and returns `int()` of the answer |
| PftlDaq.Device.Finalize | PFTL/controller/pftl_daq.py:147-150 | closes the port if one was ever opened; a never-initialized device stays without a port |
| AnalogDaq.RoundHalfEven | PythonForTheLab/Model/analog_daq.py:57 | `round(x)` lies within one half of `x`, and an exact tie goes to the even integer |
| AnalogDaq.RoundHalfEvenUnique | PythonForTheLab/Model/analog_daq.py:57 | any integer within one half of `x` that is even on a tie is `round(x)`, so the two properties define Python's rounding |
| AnalogDaq.RoundHalfEvenOfInteger | PythonForTheLab/Model/analog_daq.py:57 | rounding an integer gives that integer |
| AnalogDaq.RoundHalfEvenMonotone | PythonForTheLab/Model/analog_daq.py:57 | rounding never decreases as its argument grows |
| AnalogDaq.OutputCode | PythonForTheLab/Model/analog_daq.py:57 | the code is within half a step of `volts / 3.3 * 4095` |
| AnalogDaq.OutputVolts | PythonForTheLab/Model/analog_daq.py:74 | codes 0 to 4095 read as voltages from 0 to 3.3 V, and code 4095 is exactly 3.3 V |
| AnalogDaq.InputVolts | PythonForTheLab/Model/analog_daq.py:91 | codes 0 to 1023 read as voltages from 0 to 3.3 V, and code 1023 is exactly 3.3 V |
| AnalogDaq.OutputCodeRoundTrip | PythonForTheLab/Model/analog_daq.py:57-74 | setting the voltage that a code reads back as sends that same code |
| AnalogDaq.OutputCodeOfZero | PythonForTheLab/Model/analog_daq.py:57 | 0 V is code 0 |
| AnalogDaq.OutputCodeMonotone | PythonForTheLab/Model/analog_daq.py:57 | a higher voltage never gets a lower code |
| AnalogDaq.OutputWithinHalfStep | PythonForTheLab/Model/analog_daq.py:57-74 | voltage to code and back lands within half a code step, 3.3 V / 8190, of the request |
| AnalogDaq.OutputCodeNotClamped | PythonForTheLab/Model/analog_daq.py:57-58 | codes are not clamped to 0..4095: twice the reference asks for code 8190 |
| AnalogDaq.InputAndOutputScalesDiffer | PythonForTheLab/Model/analog_daq.py:74-91 | the input scale (1023) and the output scale (4095) are in ratio 4095:1023, so they disagree on every non-zero code |
| AnalogDaq.InputVoltsStrictlyMonotone | PythonForTheLab/Model/analog_daq.py:91 | distinct input codes read as distinct voltages, in the same order |
| AnalogDaq.ZeroedOutputs | PythonForTheLab/Model/analog_daq.py:37-43 | zeroing writes at most two frames and consumes one reply per frame written; nothing is written exactly when the port is not open; a zeroing that passes wrote both frames |
| AnalogDaq.ZeroRequests | PythonForTheLab/Model/analog_daq.py:37-38 | the zeroing requests are exactly `OUT:CH0 0` and `OUT:CH1 0` |
| AnalogDaq.ZeroingOpenPort | PythonForTheLab/Model/analog_daq.py:37-38 | on an open port that accepts both requests, the bytes for `OUT:CH0 0\n` and then `OUT:CH1 0\n` are written, two replies are consumed, and nothing fails |
| AnalogDaq.ZeroingClosedPort | PythonForTheLab/Model/analog_daq.py:42-43 | on a port that is not open, the first request already fails and nothing is written or read |
| AnalogDaq.AnalogDaq.constructor | PythonForTheLab/Model/analog_daq.py:30-32 | stores the port and builds a driver on the same port that is not yet opened |
| AnalogDaq.AnalogDaq.SetOutputVoltage | PythonForTheLab/Model/analog_daq.py:46-58 | sends `round(V / 3.3 * 4095)`, unclamped, on the channel through the query path; the device's answer is discarded |
| AnalogDaq.AnalogDaq.GetOutputVoltage | PythonForTheLab/Model/analog_daq.py:60-75 | returns the code the driver reports times 3.3 V / 4095 |
| AnalogDaq.AnalogDaq.GetInputVoltage | PythonForTheLab/Model/analog_daq.py:77-92 | returns the measured code times 3.3 V / 1023 |
| AnalogDaq.AnalogDaq.ZeroOutputs | PythonForTheLab/Model/analog_daq.py:42-43 | sets channel 0 and then channel 1 to 0 V; the first failure stops the sequence, and only requests that reach an open port are written |
| AnalogDaq.AnalogDaq.Initialize | PythonForTheLab/Model/analog_daq.py:34-38 | opens the driver first and then zeroes channel 0 and then channel 1; if the port cannot be claimed, nothing is written |
| AnalogDaq.AnalogDaq.Finalize | PythonForTheLab/Model/analog_daq.py:40-44 | zeroes both outputs before closing the driver; a failed zeroing leaves the port as it was |
| BaseDaq.Describe | PFTL/model/base_daq.py:31-32 | the description starts with `DAQ on port: ` and the rest of it is the port |
| BaseDaq.DescribeInjective | PFTL/model/base_daq.py:31-32 | different ports are described differently |
| BaseDaq.DaqBase.constructor | PFTL/model/base_daq.py:10-11 | stores the port and nothing else |
| BaseDaq.DaqBase.Initialize | PFTL/model/base_daq.py:13-14 | changes nothing |
| BaseDaq.DaqBase.Idn | PFTL/model/base_daq.py:16-17 | returns `None` |
| BaseDaq.DaqBase.GetInputVoltage | PFTL/model/base_daq.py:19-20 | returns `None` for every channel |
| BaseDaq.DaqBase.SetOutputVoltage | PFTL/model/base_daq.py:22-23 | changes nothing, whatever the channel and voltage |
| BaseDaq.DaqBase.GetOutputVoltage | PFTL/model/base_daq.py:25-26 | returns `None` for every channel |
| BaseDaq.DaqBase.Finalize | PFTL/model/base_daq.py:28-29 | changes nothing |
| BaseDaq.DaqBase.Str | PFTL/model/base_daq.py:31-32 | `DAQ on port: ` followed by exactly the stored port |
| DummyDaq.DummyDaq.constructor | PFTL/model/dummy_daq.py:16 | the inherited constructor: only the port is stored |
| DummyDaq.DummyDaq.Initialize | PFTL/model/dummy_daq.py:16 | inherited no-op: neither the DAQ nor its base changes |
| DummyDaq.DummyDaq.Idn | PFTL/model/dummy_daq.py:16 | inherited: returns `None` |
| DummyDaq.DummyDaq.GetInputVoltage | PFTL/model/dummy_daq.py:17-25 | a voltage in [0, 1) V, whatever the channel |
| DummyDaq.DummyDaq.SetOutputVoltage | PFTL/model/dummy_daq.py:16 | inherited no-op: writing an output changes no state |
| DummyDaq.DummyDaq.GetOutputVoltage | PFTL/model/dummy_daq.py:27-35 | a voltage in [0, 1) V, not tied to any value set earlier |
| DummyDaq.DummyDaq.Finalize | PFTL/model/dummy_daq.py:16 | inherited no-op: neither the DAQ nor its base changes |
| DummyDaq.DummyDaq.Str | PFTL/model/dummy_daq.py:16 | inherited `str()`: `DAQ on port: ` followed by the port |
| Daqs.ScanCalls | PFTL/model/experiment.py:86-98 | a sweep through `n` voltages whose reads all succeed makes exactly `3n` DAQ calls |
| Daqs.ScanCallsAt | PFTL/model/experiment.py:89-93 | calls `3k` to `3k + 2` of a sweep set the output to voltage `k`, read it back, and measure the input, in that order |
| Daqs.ScanCallsNext | PFTL/model/experiment.py:86-97 | one more completed step appends exactly its three calls to the calls so far |
| Daqs.Initialize | PFTL/model/experiment.py:70 | initializing the simulated DAQ passes; initializing the real one opens the port and then zeroes both outputs |
| Daqs.Finalize | PFTL/model/experiment.py:150 | finalizing the simulated DAQ passes; finalizing the real one zeroes both outputs and then closes the port |
| Daqs.SetOutputVoltage | PFTL/model/experiment.py:89 | the simulated DAQ ignores the write; the real one sends the rounded code through the query path |
| Daqs.GetOutputVoltage | PFTL/model/experiment.py:90-92 | the simulated DAQ returns a value in [0, 1) V; the real one returns the reported code on the output scale |
| Daqs.GetInputVoltage | PFTL/model/experiment.py:93 | the simulated DAQ returns a value in [0, 1) V; the real one returns the measured code on the input scale |
| Daqs.Step | PFTL/model/experiment.py:89-93 | the calls made are a prefix of set, read back, measure, cut at the first exception; a DAQ that cannot answer fails on the first call and writes nothing; the simulated DAQ always completes, with both reads in [0, 1) V; on the real DAQ the result, the value read back, the bytes written and the replies left are those of `AnalogStep`; every failure is one of the DAQ's own exceptions |
| Daqs.AnalogStep | PythonForTheLab/Model/analog_daq.py:46-92 | one step on the real DAQ's open port writes one to three frames, consumes one reply per frame, and has a value read back exactly when all three requests were made |
| Daqs.AnalogStepReadsCodes | PythonForTheLab/Model/analog_daq.py:46-92 | when the set request is accepted and the two reads answer with the codes `o` and `i`, the step writes the three frames for set, read back and measure, consumes three replies, reads back `o` on the output scale and measures `i` on the input scale |
| Daqs.CodeAnswer | PFTL/controller/pftl_daq.py:85-86 | a reply line holding a code followed by a line end is read as exactly that code |
| Daqs.StepPrefixIff | PFTL/model/experiment.py:89-93 | a call list starts a step at voltage `v` exactly when it is a prefix of that step's calls for some values read |
| Daqs.PrefixOfStep | PFTL/model/experiment.py:89-93 | a prefix of a step's calls has the shape of a step begun at that voltage |
| Daqs.SweepPoint | PFTL/model/experiment.py:89-93 | the call and reading facts of `Step`, and that its failures are the DAQ's own exceptions, which is all a sweep uses |
| Scan.Linspace | PFTL/model/experiment.py:82 | `num_steps` values that start at `start` and, from two samples on, end at `stop` |
| Scan.LinspaceEvenlySpaced | PFTL/model/experiment.py:82 | neighbouring samples are `(stop - start) / (num_steps - 1)` apart |
| Scan.LinspaceRising | PFTL/model/experiment.py:82 | a sweep from a lower to a higher voltage never goes down |
| Scan.LastDot | PFTL/model/experiment.py:127 | the position found holds a dot and no dot follows it, or there is no dot at all |
| Scan.Suffix | PFTL/model/experiment.py:127-130 | the suffix is non-empty exactly when the last dot neither opens nor ends the name, and it then runs from that dot to the end; a suffix is a dot, at least one character and no further dot |
| Scan.Stem | PFTL/model/experiment.py:127-130 | the stem is the start of the name that the suffix completes |
| Scan.WithSuffix | PFTL/model/experiment.py:137 | the name's stem followed by the new suffix, with the old suffix's length replaced by the new one's; a name without a suffix just gains the new one |
| Scan.StemSuffix | PFTL/model/experiment.py:127-130 | a name is its stem followed by its suffix, and a non-empty suffix is a dot, at least one character and no further dot |
| Scan.Numbered | PFTL/model/experiment.py:130 | a numbered name starts with the stem followed by `_` and ends with the suffix, with at least four characters between them |
| Scan.NumberedField | PFTL/model/experiment.py:130 | the field between the `_` and the suffix is a digit group that `int()` reads back as the number |
| Scan.NumberedInjective | PFTL/model/experiment.py:130-133 | two numbered names with the same stem and suffix are equal only for the same number |
| Scan.AllTakenBound | PFTL/model/experiment.py:132-135 | if names 1 to m are all taken, at least m names are taken, so the naming loop ends |
| Scan.FirstFreeUnique | PFTL/model/experiment.py:129-135 | the first free number is unique |
| Scan.LastDotAt | PFTL/model/experiment.py:127 | a dot with no dot after it is the last dot |
| Scan.SuffixAtLastDot | PFTL/model/experiment.py:127-130 | at the last dot `k`: a dot inside the name splits it into stem `name[:k]` and suffix `name[k:]`; a dot that opens the name (`.bashrc`) or ends it (`data.`) leaves no suffix and the whole name as stem |
| Scan.LastDotAppend | PFTL/model/experiment.py:130 | the last dot of `u + t` is the last dot of `t` when `t` has one |
| Scan.NumberedKeepsSuffix | PFTL/model/experiment.py:130-137 | numbering keeps the suffix, so data goes to `stem_NNNN.suffix` and metadata to `stem_NNNN.yml` |
| Scan.NumberedWithoutDot | PFTL/model/experiment.py:130-137 | a name without a dot is numbered `name_NNNN`, and its metadata goes to `name_NNNN.yml` |
| Scan.YmlDataIsItsOwnMetadata | PFTL/model/experiment.py:137-141 | with a `.yml` data file, the metadata file is the data file itself, so the table is overwritten |
| PftlExperiment.FreeName | PFTL/model/experiment.py:129-135 | the loop returns `stem_NNNN.suffix` for the smallest `NNNN >= 1` that is not among the existing names |
| PftlExperiment.Experiment.constructor | PFTL/model/experiment.py:28-42 | not running, no configuration, no DAQ, a one-sample table holding 0 V (not amperes), the cursor at 0 and the stop flag cleared |
| PftlExperiment.Experiment.LoadConfig | PFTL/model/experiment.py:44-48 | the configuration becomes the parsed file |
| PftlExperiment.Experiment.LoadDaq | PFTL/model/experiment.py:50-70 | builds the simulated or the real DAQ on the configured port by exact name and initializes it; any other name, or no configuration, fails and leaves the DAQ as it was |
| PftlExperiment.Experiment.ScanStep | PFTL/model/experiment.py:89-98 | sets the output, reads it back into `voltage_out`, measures, and stores input divided by resistance at the cursor before advancing it; the cursor advances iff the measure succeeded and the resistance is present and non-zero; a failed step leaves the table as it was, and its calls are a prefix of the step at the cursor's voltage; a step that did not measure fails with the DAQ's own exception |
| PftlExperiment.Experiment.Record | PFTL/model/experiment.py:90-98 | the value read back goes to `voltage_out`; a measurement is stored at the cursor divided by the resistance, and the cursor advances, exactly when the resistance is present and non-zero; a missing measurement or resistance leaves the table as it was |
| PftlExperiment.Experiment.SweepStep | PFTL/model/experiment.py:86-98 | one loop turn keeps the sweep's invariant: a stop seen at this boundary ends the loop with no DAQ call, and otherwise the step runs; without a DAQ it fails at once |
| PftlExperiment.Experiment.Advance | PFTL/model/experiment.py:89-98 | the step on the loaded DAQ appends its calls, keeps the table consistent with the reads, and fails when the cursor did not move; a failed step's calls are a prefix of the step at the cursor; a failure is that step's exception: a missing or zero resistance after a measurement, the DAQ's own otherwise, or a negative delay after the cursor moved; on the simulated DAQ with a usable resistance and a non-negative delay the step passes |
| PftlExperiment.Experiment.Sweep | PFTL/model/experiment.py:86-98 | after the loop, the table holds the completed steps' currents and zeros beyond the cursor, the calls made are those steps' calls plus a prefix of the step at the cursor when one failed; a sweep on a loaded DAQ fails only when a step before boundary `stopAt` raised, or after a step with a negative delay, so a stop at `stopAt` before any exception passes with the cursor at `stopAt`; on the simulated DAQ with a usable resistance and a non-negative delay the sweep always passes |
| PftlExperiment.Experiment.Setup | PFTL/model/experiment.py:82-85 | the voltages are `linspace(start, stop, num_steps)`, the table is a new zero-filled array of that length, in A, the cursor is 0 and `keep_running` is true |
| PftlExperiment.Experiment.Run | PFTL/model/experiment.py:82-99 | setup then sweep; `is_running` is cleared iff the sweep ended without an exception, and then the cursor is `num_steps`, or `stopAt` when the stop came first; the sweep's failure conditions carry over, so a stop before any exception, or the simulated DAQ with a usable resistance and a non-negative delay, clears `is_running` |
| PftlExperiment.Experiment.DoScan | PFTL/model/experiment.py:72-99 | a scan already running returns with no state changed and no DAQ call; a missing configuration or a negative step count fails with `is_running` left true; otherwise the Run contract holds, including the stop lost before the reset of `keep_running`; with a valid configuration a stop at boundary 0 clears `is_running` with the cursor at 0, and so does every scan on the simulated DAQ with a usable resistance and a non-negative delay; any other failure is a step before `stopAt` or a negative delay |
| PftlExperiment.Experiment.StopScan | PFTL/model/experiment.py:106-113 | changes only `keep_running`, to false |
| PftlExperiment.Experiment.SaveData | PFTL/model/experiment.py:115-141 | fails with `MissingConfig` without a configuration, and with `WrongUnits` while the table is still the constructor's one in V; otherwise the data file is `stem_NNNN.suffix` with `NNNN` the first free number from 1 on, never an existing name; metadata goes to the same name with `.yml` and holds the configuration; the table pairs every voltage with its current in mA, whether or not the sweep reached it |
| PftlExperiment.Experiment.Finalize | PFTL/model/experiment.py:143-150 | stops the scan, then finalizes the DAQ; a scan still marked running is reported and leaves the DAQ untouched |
| LabExperiment.FreeName | PythonForTheLab/Model/experiment.py:115-122 | a free bare name is kept as it is; otherwise the result is `stem_NNNN.suffix` with `NNNN` the first free number from 1 on |
| LabExperiment.Experiment.constructor | PythonForTheLab/Model/experiment.py:28-39 | not running, a one-sample table holding 0, the cursor at 0 and the stop flag cleared; no configuration and no DAQ yet |
| LabExperiment.Experiment.LoadConfig | PythonForTheLab/Model/experiment.py:41-45 | the configuration becomes the parsed file |
| LabExperiment.Experiment.LoadDaq | PythonForTheLab/Model/experiment.py:47-64 | builds the simulated or the real DAQ by exact name and initializes it; any other name, or no configuration, fails |
| LabExperiment.Experiment.ScanStep | PythonForTheLab/Model/experiment.py:83-91 | sets the output, reads it back, and stores the raw measured voltage in the table and in `last_measured_value` before advancing the cursor; the cursor advances iff the measure succeeded; a failed step's calls are a prefix of the step at the cursor's voltage; a failed step fails with the DAQ's own exception |
| LabExperiment.Experiment.Record | PythonForTheLab/Model/experiment.py:84-91 | the value read back goes to `voltage_out`; a measurement is stored at the cursor, which advances exactly when there is one; otherwise the table is as it was |
| LabExperiment.Experiment.SweepStep | PythonForTheLab/Model/experiment.py:80-91 | one loop turn keeps the sweep's invariant: a stop seen at this boundary ends the loop with no DAQ call, and otherwise the step runs |
| LabExperiment.Experiment.Advance | PythonForTheLab/Model/experiment.py:83-91 | the step on the loaded DAQ appends its calls, keeps the table consistent with the reads, and fails when the cursor did not move; a failed step's calls are a prefix of the step at the cursor; a failure is the DAQ's own exception with the cursor unmoved, or a negative delay after it moved; on the simulated DAQ with a non-negative delay the step passes |
| LabExperiment.Experiment.Sweep | PythonForTheLab/Model/experiment.py:80-91 | after the loop, the table holds the completed steps' voltages and zeros beyond the cursor, the calls made are those steps' calls plus a prefix of the step at the cursor when one failed; a sweep on a loaded DAQ fails only when a step before boundary `stopAt` raised, or after a step with a negative delay, so a stop at `stopAt` before any exception passes with the cursor at `stopAt`; on the simulated DAQ with a non-negative delay the sweep always passes |
| LabExperiment.Experiment.Setup | PythonForTheLab/Model/experiment.py:76-79 | the voltages are `linspace(start, stop, num_steps)`, the table is new zeros of that length, the cursor is 0 and `keep_running` is true |
| LabExperiment.Experiment.Run | PythonForTheLab/Model/experiment.py:76-92 | setup then sweep; `is_running` is cleared iff the sweep ended without an exception, and then the cursor is `num_steps`, or `stopAt` when the stop came first; the sweep's failure conditions carry over, so a stop before any exception, or the simulated DAQ with a non-negative delay, clears `is_running` |
| LabExperiment.Experiment.DoScan | PythonForTheLab/Model/experiment.py:66-92 | a scan already running returns with no state changed and no DAQ call; otherwise the scan is marked running, and a bad configuration leaves it so; otherwise the Run contract holds; with a valid configuration a stop at boundary 0 clears `is_running` with the cursor at 0, and so does every scan on the simulated DAQ with a non-negative delay; any other failure is a step before `stopAt` or a negative delay |
| LabExperiment.Experiment.StopScan | PythonForTheLab/Model/experiment.py:99-101 | changes only `keep_running`, to false |
| LabExperiment.Experiment.SaveData | PythonForTheLab/Model/experiment.py:103-128 | the bare file name when it is free, otherwise `stem_NNNN.suffix` with `NNNN` the first free number; never an existing name; metadata goes to the same name with `.yml`; the table pairs every voltage with its measured voltage |
| LabExperiment.Experiment.Finalize | PythonForTheLab/Model/experiment.py:130-137 | stops the scan, then finalizes the DAQ; a scan still marked running is reported and leaves the DAQ untouched |

## Left out

- The Qt windows and start scripts only call the experiment, so they are not part of this model.
- `start_scan` and its thread are not modelled. `stop_scan` seen from the sweep is the input `stopAt`.
- Time is not modelled: `sleep(1)` after opening the port, `sleep(delay)` after each step, and the `sleep(0.1)` polling in `finalize`. Only a negative delay shows, as the failure `time.sleep` raises.
- The hardware is not modelled. The serial port is an oracle of reply lines and a log of writes. Baud rate and timeouts are not modelled. A timed-out read is the empty line.
- The filesystem and the clock are not modelled: YAML loading and dumping, `np.savetxt`, `mkdir`, `expanduser` and the dated folder. `save_data` is modelled as the file names and contents it chooses, over the set of names already in the folder.
- Pint units are not modelled. Magnitudes are `real`s in V, A and s. The configured resistance is a number of ohms, and `int()` of `num_steps` is assumed to be an integer already. The one unit mismatch the code can hit, saving the PFTL experiment's table in mA while it is still the constructor's table in V, is kept: the flag `inAmps` records it and `SaveData` fails with `WrongUnits`.
- IEEE doubles are not modelled. `linspace` and the scaling divisions are exact rational arithmetic.
- A configuration that has some keys and lacks others is not modelled. A configuration is either loaded in full or absent, and `MissingConfig` stands for the `KeyError`/`TypeError`.
- `PFTL/model/analog_daq.py` is not part of this model. The PFTL experiment's real DAQ is the `AnalogDaq` of `PythonForTheLab/Model/analog_daq.py`, driven by the `Device` of `PFTL/controller/pftl_daq.py`.
- `PythonForTheLab/Model/base_daq.py` and `PythonForTheLab/Model/dummy_daq.py` are not modelled. They only offer `get_voltage`/`set_voltage`, so with them the sweep would fail at its first call. The model gives both experiments the simulated DAQ of `PFTL/model/dummy_daq.py`.
- `AnalogDaq.__str__` is not modelled: it returns a constant and nothing reads it.
- LabExperiment.Experiment.constructor: the source sets neither `config` nor `daq`, so using them before loading raises `AttributeError`. The model starts with both absent and fails with `MissingConfig` or `NoDaq`.
- DummyDaq.DummyDaq.GetInputVoltage: says only that the value lies in [0, 1). The distribution of `random()` is not modelled.
- PftlExperiment.Experiment.DoScan: a stop request is observed only at the step boundary `stopAt`. A stop that lands between the guard and the reset of `keep_running` is the case `stopAt` cannot express, and it is lost in the source too.
- LabExperiment.Experiment.DoScan: the same `stopAt` abstraction as the PFTL one.
- PftlExperiment.Experiment.Sweep: does not repeat the [0, 1) bounds of the simulated DAQ's reads. `ScanStep` states them for each step.
- LabExperiment.Experiment.Sweep: likewise, the [0, 1) bounds stay on `ScanStep`.
- PftlExperiment.Experiment.Finalize: the source waits forever for a scan still marked running. The model reports `StillRunning` instead and leaves the DAQ untouched.
- LabExperiment.Experiment.Finalize: reports `StillRunning` in the same way.
- PftlExperiment.Experiment.SaveData: requires a plain file name, meaning one path component that is not `.` or `..`. Names with directories are not modelled.
- LabExperiment.Experiment.SaveData: requires a plain file name in the same way.
- PftlDaq.ErrorReplyRaises: is stated for every ASCII request rather than for each builder. Every builder's contract says its request is ASCII.
- PyText.ParseInt: is `int()` only on texts with no `str.strip()` whitespace at either end and only ASCII digits. It strips the whole `str.strip()` whitespace set, where `int()` strips only ASCII whitespace, and it rejects the non-ASCII decimal digits `int()` accepts. Its only input here is a decoded, stripped ASCII answer, on which the two agree.
- Daqs.SweepPoint: states `Step`'s calls and readings but not the bytes on the real DAQ's wire. The sweeps call it, so the wire facts are stated per step by `Daqs.Step` and not carried up to `DoScan`.
