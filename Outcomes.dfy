/** How an operation of the order layer ends: a normal return, a checked
    exception (ModelExceptions / ServiceExceptions), or an unchecked
    runtime exception that nobody in the core catches. */
module Outcomes {

  datatype Option<+T> = None | Some(value: T)

  /** The unchecked exceptions the core can raise on its own. */
  datatype Unchecked =
    | NullPointer        // a null order or a missing list dereferenced
    | NumberFormat       // Integer.valueOf / Long.parseLong on a non-number
    | IndexOutOfBounds   // String.split result or substring shorter than used

  /** The checked exception of the data-access layer (ModelExceptions); the
      payload identifies what was missing instead of the message text. */
  datatype ModelError =
    | OrderDateNotFound(orderNumber: int)  // "Order number N not found for the specified date."
    | OrderFileMissing(fileName: string)   // "File: Orders_MMddyyyy.txt does not exist"

  /** The checked exception of the service layer, which wraps a ModelError. */
  datatype ServiceError = ServiceExceptions(cause: ModelError)

  /** A pure computation that either yields a value or raises an
      unchecked exception. */
  datatype Checked<+T> = Ok(value: T) | Fail(kind: Unchecked)

  datatype Outcome<+T, +E> =
    | Done(value: T)
    | Thrown(error: E)
    | Crashed(kind: Unchecked)

  /** The service's catch block: ModelExceptions become ServiceExceptions,
      unchecked exceptions pass through untouched. */
  function Rethrow<T, U>(o: Outcome<T, ModelError>, v: U): (r: Outcome<U, ServiceError>)
    ensures o.Done? <==> r.Done?
    ensures o.Thrown? ==> r == Thrown(ServiceExceptions(o.error))
    ensures o.Crashed? ==> r == Crashed(o.kind)
  {
    match o
    case Done(_) => Done(v)
    case Thrown(e) => Thrown(ServiceExceptions(e))
    case Crashed(k) => Crashed(k)
  }
}
