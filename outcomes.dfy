/** Failure-compatible wrappers and the errors raised by the density-correlation driver. */
module Outcomes {

  datatype Option<T> = None | Some(value: T)

  /** One constructor per place where the driver, or a metatensor operation it relies on, raises. */
  datatype Error =
    // the constructor (ValueError)
    | UnknownArraysBackend(requested: string)
    | NumpyWhileScripting
    | NegativeMaxAngular(maxAngular: int)
    | CorrelationOrderTooSmall(correlationOrder: int)
    // the constructor (NameError): torch arrays asked for while torch could not be imported
    | TorchNotImported
    // input validation of the density (ValueError / NotImplementedError)
    | InvalidKeyNames(names: seq<string>)
    | InvalidComponentNames(names: seq<string>)
    | GradientsNotImplemented
    | DensityAngularTooLarge(found: int, maxAngular: int)
    // the iterations (ValueError); the iteration number is reported counting from 1
    | NoValidCombinations(reportedIteration: nat)
    | CorrelationAngularTooLarge(found: int, maxAngular: int)
    // metatensor: a key column that does not exist, a block index out of range,
    // a tensor built from a different number of keys and blocks
    | MissingKeyName(name: string)
    | BlockIndexOutOfRange(index: nat, blockCount: nat)
    | KeysBlocksMismatch(keyCount: nat, blockCount: nat)
    // anything raised inside a collaborator whose code is not part of this model
    | CollaboratorFailed(message: string)

  datatype Result<T> = Success(value: T) | Failure(error: Error) {
    predicate IsFailure() { Failure? }
    function PropagateFailure<U>(): Result<U> requires Failure? { Failure(error) }
    function Extract(): T requires Success? { value }
  }

  /** What a call into an unmodelled collaborator gives back: a value, or an exception with its message. */
  datatype CallResult<T> = Returned(value: T) | Raised(message: string)

  /** An exception raised by a collaborator propagates unchanged to the driver's caller. */
  function Lift<T>(c: CallResult<T>): (r: Result<T>)
    ensures r.Success? <==> c.Returned?
    ensures r.Success? ==> r.value == c.value
    ensures r.Failure? ==> r.error == CollaboratorFailed(c.message)
  {
    match c
    case Returned(v) => Success(v)
    case Raised(m) => Failure(CollaboratorFailed(m))
  }
}
