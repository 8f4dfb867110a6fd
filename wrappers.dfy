/** Outcomes shared by the whole model: optional values, the Python exception
    classes the modelled code can raise, and results that carry one of them. */
module Wrappers {

  datatype Option<T> = None | Some(value: T)

  /** The exception classes raised by the modelled code.  `TransportError`
      stands for any failure of the HTTP layer (including running out of
      responses in the model's finite response supply). */
  datatype PyError =
    | KeyError        // `d[k]` on a dict without `k`, or an explicit `raise KeyError`
    | TypeError       // subscripting, iterating or `in` on a value that does not support it
    | ValueError      // an explicit `raise ValueError`, or tuple unpacking of the wrong length
    | AttributeError  // `.get` on a value that is not a dict
    | OSError         // a file that cannot be opened
    | TransportError  // the network call itself failed

  datatype Result<T> = Ok(value: T) | Err(error: PyError)

  /** The outcome of a call that returns nothing (`None`) on success. */
  datatype Status = Completed | Raised(error: PyError)

  lemma ConcatAssoc<T>(a: seq<T>, b: seq<T>, c: seq<T>)
    ensures (a + b) + c == a + (b + c)
  {
  }
}
