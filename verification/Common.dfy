/** Small shared vocabulary: absent values and the outcome of an operation that may be refused. */
module Common {

  datatype Option<+T> = None | Some(value: T)

  datatype Result<+T, +E> = Ok(value: T) | Err(error: E)

  function Max(a: nat, b: nat): nat { if a < b then b else a }
}
