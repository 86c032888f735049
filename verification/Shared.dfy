/** What several parts of the daemon have in common. */
module Shared {

  /** The values of the hint enumeration in src/pk-shared.h. */
  datatype Hint = HintFalse | HintTrue | HintUnset

  /** An unsigned integer has 32 bits. */
  const UINT_RANGE: nat := 0x1_0000_0000
}
