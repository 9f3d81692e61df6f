/** What the other modules share: optional values, results that may be refusals,
    and the largest 64-bit number. */
module Basics {

  const MAX_UINT64: nat := 0xFFFF_FFFF_FFFF_FFFF

  datatype Option<+T> = None | Some(value: T)

  datatype Result<+T> = Ok(value: T) | Err(reason: string)
}
