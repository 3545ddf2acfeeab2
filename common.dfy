/** Types and constants shared by the driver models. */
module Common {
  /** A C `uint8_t`. */
  type Byte = b: int | 0 <= b < 256

  /** A C `uint32_t`. */
  type U32 = x: int | 0 <= x < 0x1_0000_0000

  /** `EINVAL`, returned negated by drivers for an invalid argument. */
  const EINVAL: int := 22

  datatype Option<T> = None | Some(value: T)
}
