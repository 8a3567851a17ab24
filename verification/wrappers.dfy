/** Failure-carrying values shared by every other module, and the error
    taxonomy of the gateway client: the three exception classes of the
    library, the plain exception raised for an out-of-range zone, and the
    IndexError/ValueError a short or non-numeric payload provokes. */
module Wrappers {

  datatype Option<+T> = None | Some(value: T)

  /** Why an operation failed. */
  datatype Error =
    | InvalidResponse        // the reply did not start with the expected status
    | InvalidRequest         // a caller-supplied value is out of protocol range
    | InvalidModule          // the module id exceeds the zone's module count
    | NoZones                // "Zone out of range. No existing zones"
    | ZoneOutOfRange(minZone: int, maxZone: int, given: int)
    | MalformedPayload       // a field is missing or is not a number

  datatype Result<+T> = Success(value: T) | Failure(error: Error) {
    predicate IsFailure() { Failure? }

    function PropagateFailure<U>(): Result<U>
      requires Failure?
    {
      Failure(error)
    }

    function Extract(): T
      requires Success?
    {
      value
    }
  }

  /** A check that either passes or raises. */
  datatype Outcome = Pass | Fail(error: Error) {
    predicate IsFailure() { Fail? }

    function PropagateFailure<U>(): Result<U>
      requires Fail?
    {
      Failure(error)
    }
  }

  /** Turns a missing value into MalformedPayload, as a Python IndexError or ValueError would end the call. */
  function Need<T>(o: Option<T>): (r: Result<T>)
    ensures r.Success? <==> o.Some?
    ensures r.Success? ==> r.value == o.value
    ensures r.Failure? ==> r.error == MalformedPayload
  {
    match o
    case Some(v) => Success(v)
    case None => Failure(MalformedPayload)
  }
}
