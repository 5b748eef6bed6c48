/** The handful of Python values, truth tests and exceptions that the property
    setters of actor-critic/agents.py and generate_uuid of actor-critic/tools.py
    distinguish. */
module PyValues {

  /** An argument as the setters' `isinstance` checks and truth tests see it.
      FloatV stands for every value that is neither an int, a str nor None
      (a float, say), so that the TypeError branches can be reached. */
  datatype Value = NoneV | IntV(i: int) | StrV(s: string) | FloatV(r: real)

  /** Python truthiness: None, 0, "" and 0.0 are false, everything else true. */
  predicate Truthy(v: Value) {
    match v
    case NoneV => false
    case IntV(i) => i != 0
    case StrV(s) => s != ""
    case FloatV(r) => r != 0.0
  }

  /** A stored attribute: None until a setter assigns it. */
  datatype Option<T> = None | Some(value: T)

  /** The Python value an int-valued attribute holds. */
  function IntOrNone(o: Option<int>): Value {
    match o
    case None => NoneV
    case Some(i) => IntV(i)
  }

  /** The Python value a str-valued attribute holds. */
  function StrOrNone(o: Option<string>): Value {
    match o
    case None => NoneV
    case Some(s) => StrV(s)
  }

  /** The exceptions the setters and generate_uuid raise. */
  datatype PyError = TypeError | ValueError | RuntimeError

  /** How a call ends: normally, or by raising. */
  datatype Outcome = Ok | Raised(error: PyError)
}
