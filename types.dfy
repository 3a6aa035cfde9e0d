/** Values shared by every part of the model: bytes, the errors the
    commands can return, and the result wrappers that carry them. */
module Types {

  /** One byte of a Go `[]byte`. */
  newtype byte = x: int | 0 <= x < 256

  type Bytes = seq<byte>

  datatype Option<+T> = None | Some(value: T)

  /** The errors that reach the caller of a command. */
  datatype Error =
    | OpenFailed(path: string)        // os.Open could not open the keyring file
    | KeyNotFound(key: string)        // the store holds no value at the key
    | Unavailable                     // the store backend did not answer
    | CodecFailed(reason: string)     // an engine's Encode or Decode failed
    | Invalid(message: string)        // a configuration name was not recognised

  /** A Go `(T, error)` pair: exactly one of the two is meaningful. */
  datatype Result<+T> = Ok(value: T) | Err(error: Error)

  /** A Go function that returns only an `error`. */
  datatype Outcome = Pass | Fail(error: Error)
}
