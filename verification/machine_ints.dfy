/**
 * The fixed-width unsigned integers of the C++ source (`uint8_t`, `uint16_t`,
 * `uint32_t`) and the implicit narrowing conversions between them. A C++
 * conversion of a non-negative value to an unsigned type of `w` bits keeps the
 * value modulo `2^w`; the functions below write that reduction out.
 */
module MachineInts {

  const BYTE_RANGE: int := 0x100
  const HALF_WORD_RANGE: int := 0x1_0000

  newtype uint8 = x: int | 0 <= x < 0x100
  newtype uint16 = x: int | 0 <= x < 0x1_0000
  newtype uint32 = x: int | 0 <= x < 0x1_0000_0000

  /** Conversion of a non-negative value to `uint16_t`. */
  function Narrow16(x: nat): (r: uint16)
    ensures (x - r as int) % HALF_WORD_RANGE == 0
    ensures x < HALF_WORD_RANGE ==> r as int == x
    ensures x >= HALF_WORD_RANGE ==> r as int < x
  {
    (x % HALF_WORD_RANGE) as uint16
  }

  /** Conversion of a non-negative value to `uint8_t`. */
  function Narrow8(x: nat): (r: uint8)
    ensures (x - r as int) % BYTE_RANGE == 0
    ensures x < BYTE_RANGE ==> r as int == x
    ensures x >= BYTE_RANGE ==> r as int < x
  {
    (x % BYTE_RANGE) as uint8
  }
}
