/** Result types shared by every module, and the octet type of the codecs. */
module Common {

  datatype Option<+T> = None | Some(value: T)

  /** Classes of Python exception the modelled code raises; messages are not modelled. */
  datatype PyError = ValueError | KeyError | RuntimeError | IndexError | OverflowError | IncompleteRead | ServerError

  datatype Result<+T> = Ok(value: T) | Raised(error: PyError) {
    predicate IsFailure() { Raised? }

    function PropagateFailure<U>(): Result<U>
      requires Raised?
    {
      Raised(error)
    }

    function Extract(): T
      requires Ok?
    {
      value
    }
  }

  type Octet = x: int | 0 <= x < 0x100

  type Octets = seq<Octet>

  const U32_MAX := 0xFFFF_FFFF
}
