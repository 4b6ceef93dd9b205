/** The C integer types shared by the timer and the render command. */
module CTypes {

  /** Number of values of an `unsigned long int`, 64 bits wide on LP64 targets. */
  const ULongModulus: int := 0x1_0000_0000_0000_0000

  type ULong = x: int | 0 <= x < ULongModulus
}
