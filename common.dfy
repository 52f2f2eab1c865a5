/** Value types shared by the entities and the service. */
module Common {

  /** A .NET `Guid`: a 128-bit identifier. */
  newtype Guid = x: int | 0 <= x < 0x1_0000_0000_0000_0000_0000_0000_0000_0000

  /** A .NET `int` (System.Int32). */
  newtype int32 = x: int | -0x8000_0000 <= x < 0x8000_0000

  const MinInt32: int32 := -0x8000_0000
  const MaxInt32: int32 := 0x7FFF_FFFF

  /** A value that may be absent, standing for a C# reference that may be `null`. */
  datatype Option<T> = None | Some(value: T)
}
