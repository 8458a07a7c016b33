/** Failure-carrying values and the byte strings shared by the modules of
    this model. */
module Wrappers {

  /** A byte string: hashes, key material, ciphertexts. */
  type Bytes = seq<bv8>

  /** A present value, or its absence; also stands for a Go pointer, where
      None is the nil pointer. */
  datatype Option<+T> = None | Some(value: T)

  /** The result of an operation that either yields a value or fails with an
      error. */
  datatype Result<+T, +E> = Success(value: T) | Failure(error: E)

  /** The result of an operation that yields nothing but may fail. */
  datatype Outcome<+E> = Pass | Fail(error: E)
}
