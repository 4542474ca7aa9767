/** Values shared by every layer: ids, machine widths and the error channel. */
module Common {

  /** Stands for `sher_common::ObjectId`. The only thing the code does with an id is compare it. */
  type ObjectId = nat

  type u32 = x: nat | x < 0x1_0000_0000
  /** Also `usize`: the model fixes a 64-bit target. */
  type u64 = x: nat | x < 0x1_0000_0000_0000_0000

  /** The error classes of `sher_common::Error` that the stack returns; message texts are dropped. */
  datatype Error = Device | Memory | Security

  datatype Option<+T> = None | Some(value: T)

  datatype Result<+T> = Ok(value: T) | Err(error: Error)

  /** The value a release-profile `usize`/`u64` computation is left with: it wraps modulo 2^64. */
  function Wrap(x: int): u64 {
    x % 0x1_0000_0000_0000_0000
  }

  function WrappingAdd(x: u64, y: u64): u64 {
    Wrap(x + y)
  }

  function WrappingSub(x: u64, y: u64): u64 {
    Wrap(x - y)
  }
}
