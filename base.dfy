/** Small value types shared by the whole model. */
module Base {

  /** Absence of a value (Go's nil). */
  datatype Option<+T> = None | Some(value: T)

  /** A library call that yields a value or an error message (Go's `(v, err)` pair). */
  datatype Result<+T> = Success(value: T) | Failure(error: string)

  const MinInt64: int := -0x8000_0000_0000_0000
  const MaxInt64: int := 0x7fff_ffff_ffff_ffff

  /** Go's `int64`. */
  type Int64 = x: int | MinInt64 <= x <= MaxInt64

  /** Go's `time.Duration`: a signed count of nanoseconds. */
  type Duration = Int64
}
