/** Small value types shared by every module: Go's `nil`-or-value results and
    Go's `error` values. */
module Base {

  /** A value that may be absent (a nil Go reference, interface or error). */
  datatype Option<+T> = None | Some(value: T)

  /** A Go `(value, error)` pair where exactly one side is meaningful. */
  datatype Result<+T, +E> = Success(value: T) | Failure(error: E)

  /** A Go error value; only its message is observable. */
  datatype Error = Error(msg: string)

  /** Go's int64. */
  newtype int64 = x: int | -0x8000_0000_0000_0000 <= x < 0x8000_0000_0000_0000

  /** Go's `+` on int64: the mathematical sum, wrapped around once when it
      leaves the int64 range (a sum of two int64 values is at most one
      2^64 away from it). */
  function Add64(a: int64, b: int64): (r: int64)
    ensures -0x8000_0000_0000_0000 <= a as int + b as int < 0x8000_0000_0000_0000 ==> r as int == a as int + b as int
  {
    var sum := a as int + b as int;
    if sum >= 0x8000_0000_0000_0000 then (sum - 0x1_0000_0000_0000_0000) as int64
    else if sum < -0x8000_0000_0000_0000 then (sum + 0x1_0000_0000_0000_0000) as int64
    else sum as int64
  }

  /** The wrapped sum is the one int64 that differs from the mathematical
      sum by a multiple of 2^64, which is two's-complement addition. */
  lemma Add64Congruent(a: int64, b: int64, y: int64)
    ensures (Add64(a, b) as int - (a as int + b as int)) % 0x1_0000_0000_0000_0000 == 0
    ensures (y as int - (a as int + b as int)) % 0x1_0000_0000_0000_0000 == 0 ==> y == Add64(a, b)
  {
  }
}
