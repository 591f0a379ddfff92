/** Types shared by the models of the agent-run contour. */
module Common {

  datatype Option<+T> = None | Some(value: T)

  /** One octet of a stream. */
  type byte = b: int | 0 <= b < 256

  const MAX_COUNTER: int := 0x7FFF_FFFF_FFFF_FFFF   // a Redis counter is a signed 64-bit integer

  function Max(a: int, b: int): int { if a >= b then a else b }

  function Min(a: int, b: int): int { if a <= b then a else b }
}
