/** Option, Result and Outcome: the model's stand-ins for Python's `None`
    and for exceptions raised by the DAQ stack. */
module Wrappers {

  datatype Option<+T> = None | Some(value: T)

  datatype Result<+T, +E> = Ok(value: T) | Err(error: E) {
    /** Applies `f` to a successful value and passes an error through. */
    function Map<U>(f: T -> U): Result<U, E>
    {
      match this
      case Ok(v) => Ok(f(v))
      case Err(e) => Err(e)
    }

    /** The successful value, or `None` when an exception was raised. */
    function ToOption(): Option<T>
    {
      match this
      case Ok(v) => Some(v)
      case Err(_) => None
    }

    /** Forgets a successful value, keeping only whether an exception was raised. */
    function ToOutcome(): Outcome<E>
    {
      match this
      case Ok(_) => Pass
      case Err(e) => Fail(e)
    }
  }

  /** A call that returns nothing (`None` in Python) or raises. */
  datatype Outcome<+E> = Pass | Fail(error: E)
}

/** The exceptions the modelled code can raise, one constructor per cause. */
module Failures {

  datatype Error =
    | PortUnavailable           // serial.Serial could not claim the port
    | NoResource                // `rsc` is still None: AttributeError on write
    | PortNotOpen               // write on a serial port that was closed
    | EncodeError               // str.encode("ascii") met a non-ASCII character
    | DecodeError               // bytes.decode("ascii") met a byte >= 128
    | DeviceError(message: string)   // the device answered with the ERROR prefix
    | NotAnInteger(text: string)     // int(text) raised ValueError
    | MissingConfig             // the configuration (or one of its keys) is absent
    | UnsupportedDaq(name: string)   // load_daq met an unknown DAQ name
    | NoDaq                     // the experiment's `daq` is still None
    | NegativeSteps(count: int) // numpy.linspace refused a negative sample count
    | ZeroResistance            // ZeroDivisionError dividing by the resistance
    | NegativeDelay             // time.sleep refused a negative duration
    | StillRunning              // finalize would poll `is_running` forever
    | WrongUnits                // pint could not convert the table to mA

  /** The exceptions the DAQ's serial client raises, as against the
      experiment's own. */
  predicate FromDaq(e: Error)
  {
    || e.PortUnavailable? || e.NoResource? || e.PortNotOpen? || e.EncodeError?
    || e.DecodeError? || e.DeviceError? || e.NotAnInteger?
  }
}
