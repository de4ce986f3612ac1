/** Failure-compatible wrappers shared by every module.
    Python exceptions are modelled as `Err` values of `Result`; the kind
    of the exception is kept, its message is not. */
module Wrappers {

  datatype Option<+T> = None | Some(value: T) {
    predicate IsFailure() { None? }
    function PropagateFailure<U>(): Option<U>
      requires None?
    {
      None
    }
    function Extract(): T
      requires Some?
    {
      value
    }
    function GetOr(default: T): T {
      if Some? then value else default
    }
  }

  /** The Python exception classes raised by the modelled code. */
  datatype Error =
    | ValueError
    | KeyError
    | AttributeError
    | TypeError
    | IndexError
    | AssertionError
    | NotImplementedError
    | RecursionError
    /** `ImportError` (with `ModuleNotFoundError`) from `importlib.import_module` */
    | ImportError
    /** InvalidQuamConfigVersion raised for a missing or too old version */
    | InvalidQuamConfigVersionError
    /** the version is newer than the one this release supports */
    | GreaterThanSupportedQuamConfigVersionError
    | FileNotFoundError
    /** `json.JSONDecodeError`, re-raised for a file that is not valid JSON */
    | JSONDecodeError
    /** `IOError`, re-raised for a file that cannot be read */
    | OSError
    | RuntimeError
    | ZeroDivisionError
    /** `jsonpointer.JsonPointerException`: a pointer that does not resolve */
    | JsonPointerException

  datatype Result<+T> = Ok(value: T) | Err(error: Error) {
    predicate IsFailure() { Err? }
    function PropagateFailure<U>(): Result<U>
      requires Err?
    {
      Err(error)
    }
    function Extract(): T
      requires Ok?
    {
      value
    }
  }
}
