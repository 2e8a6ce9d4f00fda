/** Fixed-width unsigned integers, the error kinds of the DSA parameter-generation
    facade, and the checked narrowing conversion it applies on 4-byte platforms. */
module NativeTypes {

  const UINT32_MAX: int := 0xFFFF_FFFF
  const UINT64_MAX: int := 0xFFFF_FFFF_FFFF_FFFF

  newtype byte = x: int | 0 <= x < 0x100
  newtype uint32 = x: int | 0 <= x <= 0xFFFF_FFFF
  newtype uint64 = x: int | 0 <= x <= 0xFFFF_FFFF_FFFF_FFFF

  /** The exceptions the facade can raise. NullReference is what dereferencing an
      empty variant field would raise; the model proves that it never happens. */
  datatype Error = ObjectDisposed | Overflow | NullReference

  /** A value, or the exception that replaced it. */
  datatype Result<+T> = Success(value: T) | Failure(error: Error) {
    predicate IsFailure() { Failure? }

    function PropagateFailure<U>(): Result<U>
      requires Failure?
    {
      Failure(error)
    }

    function Extract(): T
      requires Success?
    {
      value
    }
  }

  /** The checked conversion from a 64-bit to a 32-bit unsigned value: it raises an
      overflow instead of truncating. */
  function ToUInt32(x: uint64): (r: Result<uint32>)
    ensures r.Success? <==> x as int <= UINT32_MAX
    ensures r.Success? ==> r.value as int == x as int
    ensures r.Failure? ==> r.error == Overflow
  {
    if x as int <= UINT32_MAX then Success(x as int as uint32) else Failure(Overflow)
  }
}
