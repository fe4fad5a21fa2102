/**
 * Value types shared by the whole model: fixed-width integers, byte strings,
 * hashes and addresses, and the Option/Result wrappers that the Rust code
 * returns.  Widths are written out so that a value's range matches the Rust
 * type it stands for.
 */
module Primitives {

  type byte = bv8
  type Bytes = seq<byte>

  /** 2^64: one past the largest `u64`. */
  const U64_LIMIT: int := 0x1_0000_0000_0000_0000

  /** 2^256: one past the largest `U256`. */
  const U256_LIMIT: int := 0x1_0000_0000_0000_0000_0000_0000_0000_0000_0000_0000_0000_0000_0000_0000_0000_0000

  type u64 = n: int | 0 <= n < 0x1_0000_0000_0000_0000

  /** `usize` on the 64-bit targets the node is built for. */
  type usize = u64

  type U256 = n: int | 0 <= n < 0x1_0000_0000_0000_0000_0000_0000_0000_0000_0000_0000_0000_0000_0000_0000_0000_0000

  /** A 32-byte hash, kept opaque: no hash algorithm is modelled. */
  type H256 = s: Bytes | |s| == 32 witness seq(32, _ => 0)

  /** A 20-byte account address. */
  type Address = s: Bytes | |s| == 20 witness seq(20, _ => 0)

  datatype Option<T> = None | Some(value: T) {

    /** Rust's `Option::map`. */
    function Map<U>(f: T -> U): Option<U> {
      match this
      case None => None
      case Some(v) => Some(f(v))
    }

    /** Rust's `Option::and_then`. */
    function AndThen<U>(f: T -> Option<U>): Option<U> {
      match this
      case None => None
      case Some(v) => f(v)
    }
  }

  datatype Result<T, E> = Ok(value: T) | Err(error: E)
}
