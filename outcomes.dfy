/** Option and Result values for the places where the Python code returns
    nothing or raises; the exceptions the model distinguishes are the ones the
    core itself can raise. */
module Outcomes {

  datatype Option<+T> = None | Some(value: T)

  /** The Python exception a call ends with. `where` names the expression that
      raised, so that two different failures can be told apart. */
  datatype Error =
    | ValueError(where: string)
    | ZeroDivisionError(where: string)
    | AttributeError(where: string)
    | OSError(where: string)

  datatype Result<+T> = Ok(value: T) | Err(error: Error)

  /** `d.get(key, default)` for an optional field of a Python dict. */
  function GetOr<T>(o: Option<T>, default: T): T
  {
    match o
    case Some(v) => v
    case None => default
  }
}
