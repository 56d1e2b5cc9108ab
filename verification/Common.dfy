/** Types and widths shared by several components. */
module Common {

  datatype Option<T> = None | Some(value: T)

  const UINT32: nat := 0x1_0000_0000
  const UINT64: nat := 0x1_0000_0000_0000_0000
  const NANOS_PER_MILLI: int := 1_000_000
}
