/** Failure-carrying datatypes shared by every module of the model, and the
    Python exception kinds the plugin's code can raise on the paths it models. */
module Wrappers {

  datatype Option<+T> = None | Some(value: T)

  datatype Result<+R, +E> = Ok(value: R) | Err(error: E)

  /** `xs` put in front of a successful result's list; a failure passes through. */
  function Prepend<T, E>(xs: seq<T>, r: Result<seq<T>, E>): Result<seq<T>, E> {
    match r
    case Ok(rest) => Ok(xs + rest)
    case Err(e) => Err(e)
  }

  /** The exceptions the modelled code raises, by Python class. */
  datatype PyError =
    | KeyError(key: string)           // a missing dictionary key or an unknown generator
    | IndexError                      // `[0]` on an empty list
    | ValueError(message: string)     // an unknown architecture, a non-numeric `int()` argument
    | TypeError                       // subscripting or iterating a value of the wrong kind
    | AttributeError(name: string)    // calling a method a value does not have
    | NotImplementedError             // a `Generator` method the subclass does not define
    | RuntimeError(message: string)   // an unexpected generator string
    | FileNotFound(path: string)      // a reply JSON file that cannot be opened

  /** Regrouping a concatenation of three sequences; the empty sequence is neutral. */
  lemma AppendAssoc<T>(a: seq<T>, b: seq<T>, c: seq<T>)
    ensures a + b + c == a + (b + c)
    ensures b + [] == b
  {
  }
}
