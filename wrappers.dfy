/** Option and Result values for the error paths of the modelled code, and a sequence law. */
module Wrappers {

  datatype Option<+T> = None | Some(value: T)

  /** `Err` carries the reason a call is rejected (a Python exception, a C error path). */
  datatype Result<+T> = Ok(value: T) | Err(reason: string)

  /** Regrouping a concatenation, with the element type kept abstract so that no element is looked into. */
  lemma AppendAssoc<T>(a: seq<T>, b: seq<T>, c: seq<T>)
    ensures (a + b) + c == a + (b + c)
  {
  }
}
