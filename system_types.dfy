/** The fixed-width .NET value types that the settings are declared with. */
module SystemTypes {

  /** `int` (System.Int32). */
  newtype int32 = x: int | -0x8000_0000 <= x < 0x8000_0000

  /** `ushort` (System.UInt16). */
  newtype uint16 = x: int | 0 <= x < 0x1_0000

  /** `int.MaxValue`. */
  const Int32MaxValue: int32 := 0x7fff_ffff
}
