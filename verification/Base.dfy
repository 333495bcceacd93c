/** Machine words, byte strings and the few containers shared by every module. */
module Base {

  const TWO32: nat := 0x1_0000_0000
  const TWO64: nat := 0x1_0000_0000_0000_0000
  const MAX_U64: nat := TWO64 - 1

  type byte = b: int | 0 <= b < 256
  type bytes = seq<byte>
  type u32 = n: int | 0 <= n < TWO32
  type u64 = n: int | 0 <= n < TWO64

  datatype Option<+T> = None | Some(value: T) {
    /** The later of two optional values wins when it is present. */
    function OrElse(other: Option<T>): Option<T> {
      if Some? then this else other
    }
  }

  datatype Result<+T, +E> = Success(value: T) | Failure(error: E)

  /** Addition of two machine words, wrapping around like Go's uint64. */
  function Add64(a: nat, b: nat): (r: u64) {
    (a + b) % TWO64
  }

  /** Multiplication of two machine words, wrapping around like Go's uint64. */
  function Mul64(a: nat, b: nat): (r: u64) {
    (a * b) % TWO64
  }

  function FlattenSeq<T>(s: seq<seq<T>>): seq<T> {
    if s == [] then [] else s[0] + FlattenSeq(s[1..])
  }
}
