/**
 * Small shared vocabulary: optional values, results and the Python
 * exceptions that the modelled code can raise.
 */
module Base {

  datatype Option<T> = None | Some(value: T)

  /** The Python exceptions the modelled code raises on malformed input. */
  datatype Exc =
    | KeyError          // a missing dictionary key or format placeholder
    | TypeError         // iterating, subscripting or unpacking the wrong kind of value
    | AttributeError    // calling `run` on something that has none, or `x.parameters` on None
    | ConstructorError  // an unhashable mapping key in the YAML loader
    | EvalError         // whatever Python's `eval` raises on the text it is given

  datatype Result<T> = Ok(value: T) | Err(error: Exc)

  /** Concatenation is associative. */
  lemma AppendAssoc<T>(a: seq<T>, b: seq<T>, c: seq<T>)
    ensures a + (b + c) == a + b + c
  {
  }
}
