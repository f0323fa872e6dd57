/** The few Python runtime notions the deserialiser relies on: `None`, a
    value-or-exception result, and the exceptions it can raise. */
module Py {

  datatype Option<+T> = None | Some(value: T)

  /** The exception a Python expression raised, by kind. */
  datatype Error =
    | KeyError(key: string)         // a dict subscript on a missing key
    | IndexError                    // a list or tuple subscript out of range
    | TypeError                     // e.g. `issubclass(None, Model)`, `None + 1`, `len(5)`
    | AttributeError(name: string)  // an attribute that does not exist
    | UpdateError                   // `dict.update` given something that is not a mapping
    | NotDeclared(name: string)     // not a declared field: ordinary attribute lookup applies
    | DictIteration                 // iterating a dict's keys, whose order a map does not keep

  /** The outcome of evaluating a Python expression: a value, or the
      exception it raised. Supports `:-`. */
  datatype Result<+T> = Ok(value: T) | Err(error: Error) {
    predicate IsFailure() { Err? }

    function PropagateFailure<U>(): Result<U>
      requires Err?
    {
      Err(error)
    }

    function Extract(): T
      requires Ok?
    {
      value
    }
  }

  /** The client object a model carries; only its identity matters here. */
  datatype Client = Client(id: nat)
}
